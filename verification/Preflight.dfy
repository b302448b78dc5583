/** The checks made before a switchover (internal/switchover/preflight.go), in particular
    the gate that keeps a promotion from losing transactions. */
module Preflight {
  import opened Text
  import opened Clusters

  datatype Severity = Hard | Soft

  datatype Check = Check(name: string, severity: Severity, passed: bool)

  datatype Config = Config(
    hasRemote: bool, hasLocalInspector: bool, hasRemoteInspector: bool, channel: string,
    allowDataLoss: bool, quarantined: bool, minRetention: int)
  {
    predicate BothInspectors() { hasLocalInspector && hasRemoteInspector }
  }

  datatype Report = Report(checks: seq<Check>, localSnapshot: Option<Node>, remoteSnapshot: Option<Node>)

  /** Everything the checks were told; None is a read error. The last four come from
      separate reads of the same settings. */
  datatype Answers = Answers(
    writable: Option<bool>,
    status: Option<Replication>,
    local: Option<Node>, remote: Option<Node>,
    missing: Option<set<Gtid>>, waited: bool, missingAfterWait: Option<set<Gtid>>,
    purgedMissing: Option<set<Gtid>>,
    forUpdates: Option<Settings>, forMode: Option<Settings>,
    forFormat: Option<Settings>, forRetention: Option<Settings>)

  function Upper(s: string): string
  {
    seq(|s|, i requires 0 <= i < |s| =>
      if 'a' <= s[i] <= 'z' then (s[i] as int - 'a' as int + 'A' as int) as char else s[i])
  }

  lemma IsRowIff(s: string)
    ensures IsRow(s) <==> Upper(s) == "ROW"
  {
    var u := Upper(s);
    if u == "ROW" {
      assert |s| == 3 && u[0] == 'R' && u[1] == 'O' && u[2] == 'W';
    }
  }

  predicate IsRow(s: string)
  {
    |s| == 3 && s[0] in {'R', 'r'} && s[1] in {'O', 'o'} && s[2] in {'W', 'w'}
  }

  // --- the gate, independently of how the rows are built -----------------------------------

  predicate RemoteReadOnly(p: Config, a: Answers) { p.hasRemote && a.writable == Some(false) }

  predicate ReplicationFine(p: Config, a: Answers)
  {
    !p.hasRemoteInspector || p.channel == ""
    || (a.status.Some? && (!a.status.value.configured || a.status.value.running || p.allowDataLoss))
  }

  /** The remote has, or after waiting came to have, every transaction of the snapshot. */
  predicate CaughtUp(a: Answers)
  {
    && a.local.Some? && a.remote.Some?
    && (a.missing == Some({}) ||
        (a.waited && (a.missingAfterWait == Some({}) || a.missingAfterWait == None)))
  }

  predicate PurgedKnown(a: Answers)
  {
    a.local.Some? && a.remote.Some? && (a.remote.value.purged == {} || a.purgedMissing == Some({}))
  }

  /** The operator accepts data loss and there is no local snapshot to compare with. */
  predicate Waived(p: Config, a: Answers)
  {
    p.allowDataLoss && (!p.BothInspectors() || a.local.None?)
  }

  predicate SettingsFine(p: Config, a: Answers)
  {
    p.hasRemoteInspector ==>
      && a.forUpdates.Some? && a.forUpdates.value.logReplicaUpdates
      && a.forMode.Some? && a.forMode.value.gtidMode == "ON"
      && a.forFormat.Some? && IsRow(a.forFormat.value.binlogFormat)
  }

  predicate Gate(p: Config, a: Answers)
  {
    && RemoteReadOnly(p, a)
    && ReplicationFine(p, a)
    && (Waived(p, a) || (p.BothInspectors() && CaughtUp(a) && PurgedKnown(a)))
    && SettingsFine(p, a)
    && !p.quarantined
  }

  // --- the checks --------------------------------------------------------------------------------

  predicate HardPassed(checks: seq<Check>)
  {
    forall i :: 0 <= i < |checks| ==> checks[i].passed || checks[i].severity == Soft
  }

  method OK(r: Report) returns (ok: bool)
    ensures ok <==> HardPassed(r.checks)
    ensures ok <==> forall c :: c in r.checks && c.severity == Hard ==> c.passed
  {
    for i := 0 to |r.checks|
      invariant HardPassed(r.checks[..i])
    {
      var c := r.checks[i];
      if !c.passed && c.severity == Hard {
        return false;
      }
      assert r.checks[..i + 1] == r.checks[..i] + [c];
    }
    assert r.checks[..|r.checks|] == r.checks;
    return true;
  }

  /** What is kept of a list: each row in its place, as often as it occurs, if it failed. */
  predicate FailedRows(checks: seq<Check>, out: seq<Check>)
  {
    if checks == [] then out == []
    else
      var init, last := checks[..|checks| - 1], checks[|checks| - 1];
      if last.passed then FailedRows(init, out)
      else out != [] && out[|out| - 1] == last && FailedRows(init, out[..|out| - 1])
  }

  method Failed(r: Report) returns (out: seq<Check>)
    ensures FailedRows(r.checks, out)
    ensures multiset(out) <= multiset(r.checks)
    ensures forall c :: c in out <==> c in r.checks && !c.passed
  {
    out := [];
    for i := 0 to |r.checks|
      invariant FailedRows(r.checks[..i], out)
      invariant multiset(out) <= multiset(r.checks[..i])
      invariant forall c :: c in out <==> c in r.checks[..i] && !c.passed
    {
      assert r.checks[..i + 1] == r.checks[..i] + [r.checks[i]];
      assert r.checks[..i + 1][..i] == r.checks[..i];
      if !r.checks[i].passed {
        assert (out + [r.checks[i]])[..|out|] == out;
        out := out + [r.checks[i]];
      }
    }
    assert r.checks[..|r.checks|] == r.checks;
  }

  /** C1. */
  method CheckRemoteReachableReadOnly(w: World, p: Config) returns (c: Check, ghost answer: Option<bool>)
    modifies w`local, w`remote, w`readFailures
    ensures Grew(old(w.local), w.local) && Grew(old(w.remote), w.remote)
    ensures answer.Some? ==> answer.value == w.remoteWritable
    ensures c == Check("C1_RemoteReachableReadOnly", Hard, p.hasRemote && answer == Some(false))
    ensures c.passed ==> p.hasRemote && !w.remoteWritable
    ensures !c.passed ==> !p.hasRemote || w.remoteWritable || w.readFailures > old(w.readFailures)
    ensures w.readFailures >= old(w.readFailures)
  {
    c, answer := Check("C1_RemoteReachableReadOnly", Hard, false), None;
    if !p.hasRemote {
      return;
    }
    var writable := w.IsRemoteWritable();
    answer := writable;
    if writable.None? {
      return;
    }
    if writable.value {
      return;
    }
    c := c.(passed := true);
  }

  /** C3: a stopped channel is tolerated when data loss is accepted. */
  method CheckRemoteReplicationRunning(w: World, p: Config) returns (c: Check, ghost answer: Option<Replication>)
    modifies w`local, w`remote, w`readFailures
    ensures Grew(old(w.local), w.local) && Grew(old(w.remote), w.remote)
    ensures c.name == "C3_RemoteReplicationRunning" && (c.severity == Soft ==> c.passed)
    ensures c.passed && p.hasRemoteInspector && p.channel != "" ==>
      !w.channel.configured || w.channel.running || p.allowDataLoss
    ensures !c.passed ==>
      && p.hasRemoteInspector && p.channel != ""
      && ((w.channel.configured && !w.channel.running && !p.allowDataLoss) || w.readFailures > old(w.readFailures))
    ensures w.readFailures >= old(w.readFailures)
    ensures c.passed <==>
      !p.hasRemoteInspector || p.channel == ""
      || (answer.Some? && (!answer.value.configured || answer.value.running || p.allowDataLoss))
  {
    c, answer := Check("C3_RemoteReplicationRunning", Hard, false), None;
    if !p.hasRemoteInspector || p.channel == "" {
      c := c.(passed := true);
      return;
    }
    var status := w.ReplicationStatus();
    answer := status;
    if status.None? {
      return;
    }
    if !status.value.configured {
      c := c.(passed := true);
      return;
    }
    if !status.value.running {
      if p.allowDataLoss {
        c := c.(severity := Soft, passed := true);
      }
      return;
    }
    c := c.(passed := true);
  }

  const NO_ANSWERS := Answers(None, None, None, None, None, false, None, None, None, None, None, None)

  /** C5, C6 and C10. C5 fails until the remote has the local snapshot; the wait of C6
      upgrades it. */
  method GtidChecks(w: World, p: Config)
    returns (local: Option<Node>, remote: Option<Node>, subset: Check, wait: Check, purge: Check, ghost a: Answers)
    modifies w`local, w`remote, w`readFailures
    ensures Grew(old(w.local), w.local) && Grew(old(w.remote), w.remote)
    ensures subset.severity == wait.severity == purge.severity == Hard
    ensures !p.BothInspectors() ==> a == NO_ANSWERS
    ensures a == NO_ANSWERS.(local := a.local, remote := a.remote, missing := a.missing, waited := a.waited,
                             missingAfterWait := a.missingAfterWait, purgedMissing := a.purgedMissing)
    ensures local == a.local && remote == a.remote
    ensures subset.passed && wait.passed && purge.passed <==>
      Waived(p, a) || (p.BothInspectors() && CaughtUp(a) && PurgedKnown(a))
    ensures local.Some? ==> old(w.local).executed <= local.value.executed <= w.local.executed
    ensures CaughtUp(a) ==> local.value.executed <= w.remote.executed
    ensures PurgedKnown(a) ==> remote.value.purged <= w.local.executed
    // with no local snapshot to compare with, everything hangs on the operator's consent
    ensures !p.hasLocalInspector || !p.hasRemoteInspector || local.None? ==>
      && (subset.passed <==> p.allowDataLoss) && (wait.passed <==> p.allowDataLoss)
      && (purge.passed <==> p.allowDataLoss)
    // with one, consent does not matter
    ensures local.Some? ==>
      && p.hasLocalInspector && p.hasRemoteInspector && (wait.passed <==> subset.passed)
      && (subset.passed ==> local.value.executed <= w.remote.executed)
      && (purge.passed ==> remote.Some? && remote.value.purged <= w.local.executed)
    // and without a failed read or an abandoned wait the checks pass whenever they should
    ensures w.readFailures >= old(w.readFailures)
    ensures w.readFailures == old(w.readFailures) && p.hasLocalInspector && p.hasRemoteInspector ==>
      && local.Some? && remote.Some? && subset.passed
      && (remote.value.purged <= old(w.local).executed ==> purge.passed)
  {
    subset, wait, purge := Check("C5_GTIDSubset", Hard, false), Check("C6_GTIDCatchup", Hard, false),
                           Check("C10_RemotePurgedNotAhead", Hard, false);
    local, remote, a := None, None, NO_ANSWERS;
    if !p.hasLocalInspector || !p.hasRemoteInspector {
      if p.allowDataLoss {
        subset, wait, purge := subset.(passed := true), wait.(passed := true), purge.(passed := true);
      }
      return;
    }
    local := w.Snapshot(false);
    remote := w.Snapshot(true);
    a := a.(local := local, remote := remote);

    if local.None? {
      if p.allowDataLoss {
        subset := subset.(passed := true);
      }
    } else if remote.Some? {
      var err, missing := w.MissingGTIDs(true, local.value.executed);
      a := a.(missing := if err then None else Some(missing));
      if !err && missing == {} {
        subset := subset.(passed := true);
      }
    }

    if subset.passed {
      wait := wait.(passed := true);
    } else if local.None? || remote.None? {
    } else {
      var reached := w.WaitForGTID(local.value.executed);
      a := a.(waited := reached);
      if reached {
        var err, missing := w.MissingGTIDs(true, local.value.executed);
        a := a.(missingAfterWait := if err then None else Some(missing));
        if missing == {} {
          subset, wait := subset.(passed := true), wait.(passed := true);
        }
      }
    }

    if local.None? {
      if p.allowDataLoss {
        purge := purge.(passed := true);
      }
    } else if remote.None? {
    } else if remote.value.purged == {} {
      purge := purge.(passed := true);
    } else {
      var err, missing := w.MissingGTIDs(false, remote.value.purged);
      a := a.(purgedMissing := if err then None else Some(missing));
      if !err && missing == {} {
        purge := purge.(passed := true);
      }
    }
  }

  /** C7, C9, C8 and C11 each read the remote settings; C11 is soft. */
  method SettingChecks(w: World, p: Config) returns (checks: seq<Check>, ghost a: Answers)
    modifies w`local, w`remote, w`readFailures
    ensures Grew(old(w.local), w.local) && Grew(old(w.remote), w.remote)
    ensures |checks| == 4 && checks[0].severity == checks[1].severity == checks[2].severity == Hard
    ensures checks[3].severity == Soft
    ensures checks[0].passed && checks[1].passed && checks[2].passed <==> SettingsFine(p, a)
    ensures checks[3].passed <==>
      !p.hasRemoteInspector
      || (a.forRetention.Some? &&
          a.forRetention.value.expireSeconds >= if p.minRetention <= 0 then 7 * 24 * 3600 else p.minRetention)
    ensures p.hasRemoteInspector ==>
      && (checks[0].passed ==> w.settings.logReplicaUpdates)
      && (checks[1].passed ==> w.settings.gtidMode == "ON")
      && (checks[2].passed ==> Upper(w.settings.binlogFormat) == "ROW")
    ensures w.readFailures >= old(w.readFailures)
    ensures w.readFailures == old(w.readFailures) && p.hasRemoteInspector ==>
      && (w.settings.logReplicaUpdates ==> checks[0].passed)
      && (w.settings.gtidMode == "ON" ==> checks[1].passed)
      && (Upper(w.settings.binlogFormat) == "ROW" ==> checks[2].passed)
      && (checks[3].passed <==>
            w.settings.expireSeconds >= if p.minRetention <= 0 then 7 * 24 * 3600 else p.minRetention)
    ensures !p.hasRemoteInspector ==> checks[0].passed && checks[1].passed && checks[2].passed && checks[3].passed
  {
    IsRowIff(w.settings.binlogFormat);
    a := NO_ANSWERS;
    var c7, c9 := Check("C7_RemoteLogReplicaUpdates", Hard, true), Check("C9_GTIDModeOn", Hard, true);
    var c8, c11 := Check("C8_BinlogFormatRow", Hard, true), Check("C11_RemoteBinlogRetention", Soft, true);
    if p.hasRemoteInspector {
      var s := w.RemoteSettings();
      a := a.(forUpdates := s);
      c7 := c7.(passed := s.Some? && s.value.logReplicaUpdates);
      s := w.RemoteSettings();
      a := a.(forMode := s);
      c9 := c9.(passed := s.Some? && s.value.gtidMode == "ON");
      s := w.RemoteSettings();
      a := a.(forFormat := s);
      c8 := c8.(passed := s.Some? && IsRow(s.value.binlogFormat));
      s := w.RemoteSettings();
      a := a.(forRetention := s);
      var minimum := if p.minRetention <= 0 then 7 * 24 * 3600 else p.minRetention;
      c11 := c11.(passed := s.Some? && s.value.expireSeconds >= minimum);
    }
    checks := [c7, c9, c8, c11];
  }

  lemma AllHardPassed(c1: Check, c3: Check, c5: Check, c6: Check, c10: Check, settings: seq<Check>, c12: Check)
    requires |settings| == 4 && settings[3].severity == Soft
    requires c1.severity == c5.severity == c6.severity == c10.severity == c12.severity == Hard
    requires settings[0].severity == settings[1].severity == settings[2].severity == Hard
    requires c3.severity == Soft ==> c3.passed
    ensures HardPassed([c1, c3, c5, c6, c10] + settings + [c12]) <==>
      && c1.passed && c3.passed && c5.passed && c6.passed && c10.passed
      && settings[0].passed && settings[1].passed && settings[2].passed && c12.passed
  {
    var checks := [c1, c3, c5, c6, c10] + settings + [c12];
    assert checks[0] == c1 && checks[1] == c3 && checks[2] == c5 && checks[3] == c6 && checks[4] == c10;
    assert checks[5] == settings[0] && checks[6] == settings[1] && checks[7] == settings[2] && checks[8] == settings[3];
    assert checks[9] == c12;
  }

  /** The remote's own settings let it be promoted. */
  ghost predicate SettingsHold(w: World, p: Config)
    reads w`channel, w`settings
  {
    p.hasRemoteInspector ==>
      && (p.channel != "" ==> !w.channel.configured || w.channel.running || p.allowDataLoss)
      && w.settings.logReplicaUpdates && w.settings.gtidMode == "ON" && Upper(w.settings.binlogFormat) == "ROW"
  }

  /** All checks, whatever fails on the way. No hard check fails exactly when the gate
      holds of the answers; and whenever the gate holds without a waiver, the remote has
      by now executed everything the local side had executed when the run began. */
  method Run(w: World, p: Config) returns (r: Report, ghost a: Answers)
    modifies w`local, w`remote, w`readFailures
    ensures Grew(old(w.local), w.local) && Grew(old(w.remote), w.remote)
    ensures HardPassed(r.checks) <==> Gate(p, a)
    ensures r.localSnapshot == a.local && r.remoteSnapshot == a.remote
    ensures Gate(p, a) ==> !w.remoteWritable
    ensures Gate(p, a) && !Waived(p, a) ==>
      && r.localSnapshot.Some? && r.remoteSnapshot.Some?
      && old(w.local).executed <= r.localSnapshot.value.executed <= w.remote.executed
      && r.remoteSnapshot.value.purged <= w.local.executed
    // what a passed gate means
    ensures Gate(p, a) ==> p.hasRemote && !w.remoteWritable && !p.quarantined && SettingsHold(w, p)
    ensures Gate(p, a) && r.localSnapshot.None? ==> p.allowDataLoss
    ensures Gate(p, a) && r.localSnapshot.Some? ==>
      && old(w.local).executed <= r.localSnapshot.value.executed <= w.remote.executed
      && r.remoteSnapshot.Some? && r.remoteSnapshot.value.purged <= w.local.executed
    // and when it does pass
    ensures w.readFailures >= old(w.readFailures)
    ensures w.readFailures == old(w.readFailures) && p.hasLocalInspector && p.hasRemoteInspector ==>
      && r.localSnapshot.Some? && r.remoteSnapshot.Some?
      && ((p.hasRemote && !w.remoteWritable && !p.quarantined && SettingsHold(w, p)
           && r.remoteSnapshot.value.purged <= old(w.local).executed) ==> Gate(p, a))
    ensures w.readFailures == old(w.readFailures) && !(p.hasLocalInspector && p.hasRemoteInspector) ==>
      (Gate(p, a) <==> p.hasRemote && !w.remoteWritable && !p.quarantined && SettingsHold(w, p) && p.allowDataLoss)
  {
    hide Upper, IsRow;
    var c1, answer1 := CheckRemoteReachableReadOnly(w, p);
    var c3, answer3 := CheckRemoteReplicationRunning(w, p);
    var local, remote, c5, c6, c10, gtid := GtidChecks(w, p);
    var settings, other := SettingChecks(w, p);
    var c12 := Check("C12_ReplicaNotQuarantined", Hard, !p.quarantined);
    a := gtid.(writable := answer1, status := answer3, forUpdates := other.forUpdates, forMode := other.forMode,
               forFormat := other.forFormat, forRetention := other.forRetention);
    r := Report([c1, c3, c5, c6, c10] + settings + [c12], local, remote);
    AllHardPassed(c1, c3, c5, c6, c10, settings, c12);
    hide HardPassed;
  }
}

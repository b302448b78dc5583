/** The recipe that skips one replicated transaction (internal/pxc/replication.go): stop
    the applier, commit an empty transaction under the failing GTID, restore the session,
    start the applier. Any statement may fail, and a failed one may still have been
    applied. */
module SkipRecipe {
  import opened Faults
  import opened Text
  import SqlText

  datatype Stmt = Stop(fallback: bool) | SetNext | Begin | Commit | Rollback | Reset | Start(fallback: bool)

  datatype Stage = Rejected | AtOpen | AtConnect | AtStop | AtSet | AtBegin | AtCommit | AtReset | AtStart

  /** gtidNext is None for AUTOMATIC. */
  datatype State = State(gtidNext: Option<string>, inTxn: bool, executed: set<string>, running: bool)

  function Effect(s: State, gtid: string, c: Stmt): State
  {
    match c
    case Stop(_) => s.(running := false)
    case SetNext => s.(gtidNext := Some(gtid))
    case Begin => s.(inTxn := true)
    case Commit =>
      s.(inTxn := false, executed := s.executed + if s.inTxn && s.gtidNext.Some? then {s.gtidNext.value} else {})
    case Rollback => s.(inTxn := false)
    case Reset => s.(gtidNext := None)
    case Start(_) => s.(running := true)
  }

  /** The last outcome of every statement sent. */
  type Outcomes = map<Stmt, Outcome>

  predicate Ok(m: Outcomes, c: Stmt) { c in m && m[c].ok }
  predicate Failed(m: Outcomes, c: Stmt) { c in m && !m[c].ok }
  predicate Applied(m: Outcomes, c: Stmt) { c in m && m[c].applied }

  ghost predicate SameBut(m: Outcomes, n: Outcomes, cs: set<Stmt>)
  {
    forall c :: c !in cs ==> (c in m <==> c in n) && (c in m ==> m[c] == n[c])
  }

  class Session {
    var gtidNext: Option<string>
    var inTxn: bool
    var executed: set<string>
    var running: bool
    ghost var sent: Outcomes
    ghost var everFailed: set<Stmt>

    function Now(): State
      reads `gtidNext, `inTxn, `executed, `running
    {
      State(gtidNext, inTxn, executed, running)
    }

    /** gtid_next cannot be set inside a transaction (MySQL 8.0 Reference Manual, section
        19.1.6.5 "Global Transaction ID System Variables"). */
    method Exec(c: Stmt, gtid: string) returns (ok: bool, ghost r: Outcome)
      modifies this
      ensures r.ok == ok && (ok ==> r.applied) && sent == old(sent)[c := r]
      ensures everFailed == old(everFailed) + if ok then {} else {c}
      ensures Now() == if r.applied then Effect(old(Now()), gtid, c) else old(Now())
      ensures c in {SetNext, Reset} && old(inTxn) ==> !r.applied
    {
      var applied: bool;
      ok, applied := *, *;
      if c in {SetNext, Reset} && inTxn {
        ok, applied := false, false;
      } else if ok {
        applied := true;
      }
      if applied {
        var s := Effect(Now(), gtid, c);
        gtidNext, inTxn, executed, running := s.gtidNext, s.inTxn, s.executed, s.running;
      }
      r := Outcome(ok, applied);
      sent := sent[c := r];
      everFailed := everFailed + if ok then {} else {c};
    }
  }

  /** The cleanup on any failure after STOP and before the final START. */
  method RestoreApplier(s: Session, gtid: string)
    requires Start(false) !in s.sent && Start(true) !in s.sent
    modifies s
    ensures s.executed == old(s.executed) && old(s.everFailed) <= s.everFailed
    ensures SameBut(old(s.sent), s.sent, {Reset, Start(false), Start(true)})
    ensures Reset in s.sent && (s.gtidNext != None ==> !Applied(s.sent, Reset))
    ensures Start(false) in s.sent && (Start(true) in s.sent <==> Failed(s.sent, Start(false)))
    ensures s.running <==> Applied(s.sent, Start(false)) || Applied(s.sent, Start(true)) || old(s.running)
    ensures !s.running ==> Failed(s.sent, Start(false)) && Failed(s.sent, Start(true))
  {
    var ok;
    ghost var r;
    ok, r := s.Exec(Reset, gtid);
    ok, r := s.Exec(Start(false), gtid);
    if !ok {
      ok, r := s.Exec(Start(true), gtid);
    }
  }

  /** The statements that commit the empty transaction, up to the first that fails; a
      failed COMMIT is rolled back. */
  method CommitEmpty(s: Session, gtid: string) returns (err: Option<Stage>)
    requires {SetNext, Begin, Commit, Rollback} !! s.sent.Keys
    modifies s
    ensures SameBut(old(s.sent), s.sent, {SetNext, Begin, Commit, Rollback})
    ensures s.running == old(s.running) && (Reset in s.everFailed <==> Reset in old(s.everFailed))
    ensures s.executed == old(s.executed) + if Applied(s.sent, Commit) then {gtid} else {}
    ensures err == Some(AtSet) <==> Failed(s.sent, SetNext)
    ensures err == Some(AtBegin) <==> Failed(s.sent, Begin)
    ensures err == Some(AtCommit) <==> Failed(s.sent, Commit)
    ensures err == None <==> Ok(s.sent, Commit)
    ensures err == None ==> gtid in s.executed
    ensures err in {None, Some(AtSet), Some(AtBegin), Some(AtCommit)}
    ensures Rollback in s.sent <==> err == Some(AtCommit)
  {
    var ok;
    ghost var r;
    ok, r := s.Exec(SetNext, gtid);
    if !ok {
      return Some(AtSet);
    }
    ok, r := s.Exec(Begin, gtid);
    if !ok {
      return Some(AtBegin);
    }
    ok, r := s.Exec(Commit, gtid);
    if !ok {
      ok, r := s.Exec(Rollback, gtid);
      return Some(AtCommit);
    }
    return None;
  }

  method StopApplier(s: Session, gtid: string) returns (ok: bool)
    requires s.sent == map[]
    modifies s
    ensures s.sent.Keys <= {Stop(false), Stop(true)} && Stop(false) in s.sent
    ensures Stop(true) in s.sent <==> Failed(s.sent, Stop(false))
    ensures Reset in s.everFailed <==> Reset in old(s.everFailed)
    ensures !ok <==> Failed(s.sent, Stop(false)) && Failed(s.sent, Stop(true))
    ensures s.Now() ==
      old(s.Now()).(running := old(s.running) && !Applied(s.sent, Stop(false)) && !Applied(s.sent, Stop(true)))
  {
    ghost var r;
    ok, r := s.Exec(Stop(false), gtid);
    if !ok {
      ok, r := s.Exec(Stop(true), gtid);
    }
  }

  /** The end of the recipe, once the empty transaction is committed. */
  method ResetAndStart(s: Session, gtid: string) returns (err: Option<Stage>)
    requires Start(false) !in s.sent && Start(true) !in s.sent && Reset !in s.everFailed
    modifies s
    ensures s.executed == old(s.executed)
    ensures SameBut(old(s.sent), s.sent, {Reset, Start(false), Start(true)})
    ensures Start(false) in s.sent && (Start(true) in s.sent <==> Failed(s.sent, Start(false)))
    ensures err == Some(AtReset) <==> Reset in s.everFailed
    ensures err == Some(AtStart) <==>
      Reset !in s.everFailed && Failed(s.sent, Start(false)) && Failed(s.sent, Start(true))
    ensures err in {None, Some(AtReset), Some(AtStart)}
    ensures s.gtidNext != None ==> Reset in s.sent && !Applied(s.sent, Reset)
    ensures !s.running ==> Failed(s.sent, Start(false)) && Failed(s.sent, Start(true))
    ensures err == None ==> s.gtidNext == None && s.running
    ensures err == Some(AtStart) ==> s.gtidNext == None
  {
    var ok;
    ghost var r;
    ok, r := s.Exec(Reset, gtid);
    if !ok {
      RestoreApplier(s, gtid);
      return Some(AtReset);
    }
    ok, r := s.Exec(Start(false), gtid);
    if !ok {
      ok, r := s.Exec(Start(true), gtid);
      if !ok {
        return Some(AtStart);
      }
    }
    return None;
  }

  /** For every pattern of failures: unless STOP failed, gtid_next ends AUTOMATIC or the
      last reset was not applied, and the applier ends running or both spellings of START
      failed; executed gains the GTID exactly when COMMIT was applied, and nothing else;
      and there is an error exactly when STOP, the transaction, the first reset or START
      failed. A failed STOP ends the recipe at once, even if it did stop the applier. */
  method RunSkipNextTransaction(s: Session, gtid: string) returns (err: Option<Stage>)
    requires s.sent == map[] && s.everFailed == {}
    modifies s
    ensures err !in {Some(Rejected), Some(AtOpen), Some(AtConnect)} && s.sent != map[]
    ensures err == Some(AtStop) <==> Failed(s.sent, Stop(false)) && Failed(s.sent, Stop(true))
    ensures err == Some(AtStop) ==>
      s.Now() == old(s.Now()).(
        running := old(s.running) && !Applied(s.sent, Stop(false)) && !Applied(s.sent, Stop(true)))
    ensures err != Some(AtStop) && s.gtidNext != None ==> Reset in s.sent && !Applied(s.sent, Reset)
    ensures err != Some(AtStop) && !s.running ==> Failed(s.sent, Start(false)) && Failed(s.sent, Start(true))
    ensures s.executed == old(s.executed) + if Applied(s.sent, Commit) then {gtid} else {}
    ensures err == Some(AtSet) <==> Failed(s.sent, SetNext)
    ensures err == Some(AtBegin) <==> Failed(s.sent, Begin)
    ensures err == Some(AtCommit) <==> Failed(s.sent, Commit)
    ensures err in {None, Some(AtReset), Some(AtStart)} <==> Ok(s.sent, Commit)
    ensures Rollback in s.sent <==> err == Some(AtCommit)
    ensures err == None ==> s.gtidNext == None && s.running && gtid in s.executed
    ensures err == Some(AtReset) <==> Ok(s.sent, Commit) && Reset in s.everFailed
    ensures err == Some(AtStart) <==>
      && Ok(s.sent, Commit) && Reset !in s.everFailed
      && Failed(s.sent, Start(false)) && Failed(s.sent, Start(true))
    ensures err == Some(AtStart) ==> s.gtidNext == None
    ensures Stop(false) in s.sent && (Stop(true) in s.sent <==> Failed(s.sent, Stop(false)))
    ensures err != Some(AtStop) ==>
      Start(false) in s.sent && (Start(true) in s.sent <==> Failed(s.sent, Start(false)))
  {
    var ok := StopApplier(s, gtid);
    if !ok {
      return Some(AtStop);
    }
    err := CommitEmpty(s, gtid);
    if err != None {
      RestoreApplier(s, gtid);
      return;
    }
    err := ResetAndStart(s, gtid);
  }

  /** The recipe behind its guard on the arguments, and behind opening the database and
      acquiring a connection: until the connection is there nothing is sent, and from there
      on the recipe runs. */
  method SkipNextTransaction(s: Session, channel: string, gtid: string, opens: bool, connects: bool)
    returns (err: Option<Stage>)
    requires s.sent == map[] && s.everFailed == {}
    modifies s
    ensures var rejected :=
              || channel == "" || gtid == "" || |gtid| > 200
              || exists i :: 0 <= i < |gtid| && !SqlText.GtidChar(gtid[i]);
            && (err == Some(Rejected) <==> rejected)
            && (err == Some(AtOpen) <==> !rejected && !opens)
            && (err == Some(AtConnect) <==> !rejected && opens && !connects)
            && (s.sent == map[] <==> rejected || !opens || !connects)
    ensures s.sent == map[] ==> s.Now() == old(s.Now())
    ensures s.sent != map[] ==>
      (err == None <==>
         && Ok(s.sent, Commit) && Reset !in s.everFailed
         && (Ok(s.sent, Start(false)) || Ok(s.sent, Start(true))))
    ensures err == None ==> SqlText.Accepts(channel, gtid) && s.gtidNext == None && s.running && gtid in s.executed
    ensures s.executed == old(s.executed) + if Applied(s.sent, Commit) then {gtid} else {}
  {
    if channel == "" {
      return Some(Rejected);
    }
    if gtid == "" {
      return Some(Rejected);
    }
    var valid := SqlText.ValidGTIDLiteral(gtid);
    if !valid {
      return Some(Rejected);
    }
    if !opens {
      return Some(AtOpen);
    }
    if !connects {
      return Some(AtConnect);
    }
    err := RunSkipNextTransaction(s, gtid);
  }
}

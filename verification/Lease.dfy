/** The single-row leader lease (internal/pxc/leader_lease.go) and the peer check made
    before a promotion (internal/switchover/lease.go).

    Two clocks matter: the database stamps heartbeats, each controller decides expiry
    with its own clock. Times are integers in one unit (microseconds). */
module Lease {
  import opened Faults
  import opened Text

  datatype Lease = Lease(owner: string, epoch: int, acquiredAt: int, heartbeatAt: int)

  predicate Expired(l: Lease, now: int, ttl: int) { now - l.heartbeatAt > ttl }

  const SEED_HEARTBEAT := 1_000_000

  /** The row that schema creation inserts. */
  function Seed(at: int): Lease { Lease("", 0, at, SEED_HEARTBEAT) }

  /** How a transaction ends: it commits; some statement before COMMIT fails, so it is
      rolled back; or COMMIT reports an error and has or has not been applied. */
  datatype Fate = Committed | Aborted | CommitError(applied: bool)

  /** One AcquireOrRenewLease call. `readAt` and `writeAt` are database times: the moment
      the caller, holding the row lock, reads its own `clock`, and the moment of NOW(6). */
  datatype Call = Call(caller: string, ttl: int, readAt: int, clock: int, writeAt: int, fate: Fate)

  datatype Reply = Granted(lease: Lease) | HeldElsewhere(current: Lease) | Failed

  type Row = Option<Lease>

  function Owner(row: Row): string { if row.Some? then row.value.owner else "" }

  function Epoch(row: Row): int { if row.Some? then row.value.epoch else 0 }

  predicate MayWrite(row: Row, c: Call)
  {
    && c.caller != ""
    && (Owner(row) == "" || Owner(row) == c.caller || Expired(row.value, c.clock, c.ttl))
  }

  /** The call changes the stored row, whether or not the caller learns of it. */
  predicate TakesEffect(row: Row, c: Call)
  {
    MayWrite(row, c) && (c.fate == Committed || c.fate == CommitError(true))
  }

  function After(row: Row, c: Call): Row
  {
    if !TakesEffect(row, c) then row
    else if Owner(row) == c.caller then Some(row.value.(heartbeatAt := c.writeAt))
    else Some(Lease(c.caller, Epoch(row) + 1, c.writeAt, c.writeAt))
  }

  class LeaseTable {
    var row: Row

    constructor ()
      ensures row == None
    {
      row := None;
    }

    /** Opening the database, CREATE DATABASE and CREATE TABLE, both IF NOT EXISTS, then
        INSERT IGNORE of the seed row, which may be applied although it reports failure. It
        succeeds exactly if all four do, and an existing row survives every outcome. */
    method EnsureLeaderLeaseSchema(at: int, opens: bool, database: bool, table: bool, seed: Outcome)
      returns (ok: bool)
      requires seed.ok ==> seed.applied
      modifies this
      ensures ok <==> opens && database && table && seed.ok
      ensures row ==
        if old(row) == None && opens && database && table && seed.applied then Some(Lease("", 0, at, 1_000_000))
        else old(row)
      ensures ok ==> row.Some?
    {
      if !opens {
        return false;
      }
      if !database {
        return false;
      }
      if !table {
        return false;
      }
      if seed.applied && row == None {
        row := Some(Seed(at));
      }
      return seed.ok;
    }

    /** One transaction under the row lock. */
    method AcquireOrRenew(c: Call) returns (r: Reply)
      modifies this
      ensures row == After(old(row), c)
      ensures var before := old(row);
              var may :=
                && c.caller != ""
                && (before == None || before.value.owner == "" || before.value.owner == c.caller
                    || c.clock - before.value.heartbeatAt > c.ttl);
              var renews := before.Some? && before.value.owner == c.caller;
              && (r.Granted? <==> may && c.fate == Committed)
              && (r.HeldElsewhere? <==> c.caller != "" && !may && c.fate != Aborted)
              && (r.HeldElsewhere? ==> row == before == Some(r.current))
              && (row == if !may || c.fate == Aborted || c.fate == CommitError(false) then before
                         else if renews then
                           Some(Lease(c.caller, before.value.epoch, before.value.acquiredAt, c.writeAt))
                         else Some(Lease(c.caller, 1 + if before == None then 0 else before.value.epoch,
                                         c.writeAt, c.writeAt)))
              && (r.Granted? ==>
                    r.lease == Lease(c.caller, row.value.epoch,
                                     if renews then before.value.acquiredAt else c.clock, c.clock))
    {
      if c.caller == "" || c.fate == Aborted {
        return Failed;
      }
      var current := if row == None then Seed(c.writeAt) else row.value;
      var available := current.owner == "" || Expired(current, c.clock, c.ttl);
      var result, written;
      if current.owner == c.caller {
        written := current.(heartbeatAt := c.writeAt);
        result := Lease(c.caller, current.epoch, current.acquiredAt, c.clock);
      } else if available {
        written := Lease(c.caller, current.epoch + 1, c.writeAt, c.writeAt);
        result := Lease(c.caller, current.epoch + 1, c.clock, c.clock);
      } else {
        return HeldElsewhere(current);
      }
      if c.fate == CommitError(false) {
        return Failed;
      }
      row := Some(written);
      r := if c.fate == Committed then Granted(result) else Failed;
    }
  }

  // --- runs of any number of callers, serialised by the row lock -------------------

  function Run(start: Row, calls: seq<Call>): Row
  {
    if calls == [] then start else After(Run(start, calls[..|calls| - 1]), calls[|calls| - 1])
  }

  function At(start: Row, calls: seq<Call>, n: nat): Row
    requires n <= |calls|
  {
    Run(start, calls[..n])
  }

  lemma Next(start: Row, calls: seq<Call>, n: nat)
    requires n < |calls|
    ensures At(start, calls, n + 1) == After(At(start, calls, n), calls[n])
  {
    assert calls[..n + 1][..n] == calls[..n];
  }

  /** The row lock orders the calls; clocks are within `delta` of the database clock. */
  predicate Serialised(calls: seq<Call>, delta: int)
  {
    && (forall i :: 0 <= i < |calls| ==>
          && -delta <= calls[i].clock - calls[i].readAt <= delta
          && calls[i].readAt <= calls[i].writeAt)
    && (forall i, j :: 0 <= i < j < |calls| ==> calls[i].writeAt <= calls[j].readAt)
  }

  predicate EffectiveAt(start: Row, calls: seq<Call>, i: nat)
  {
    i < |calls| && TakesEffect(At(start, calls, i), calls[i])
  }

  predicate KeepsTtl(calls: seq<Call>, caller: string, ttl: int, lo: nat, hi: nat)
  {
    forall k :: lo <= k < hi && k < |calls| && calls[k].caller == caller ==> calls[k].ttl >= ttl
  }

  /** What stays true of the row after A's write at index i: it is never older than that
      write, and it belongs to `other` only if it was written after A's term. */
  lemma {:induction false} HeldSince(start: Row, calls: seq<Call>, delta: int, i: nat, other: string, ttl: int, n: nat)
    requires Serialised(calls, delta) && EffectiveAt(start, calls, i) && i < n <= |calls|
    requires other != calls[i].caller
    requires KeepsTtl(calls, other, ttl, i + 1, n)
    ensures var row := At(start, calls, n);
            && row.Some? && row.value.owner != ""
            && row.value.heartbeatAt >= calls[i].writeAt
            && (row.value.owner == other ==> row.value.heartbeatAt > calls[i].writeAt + ttl - delta)
            && (forall k :: n <= k < |calls| ==> row.value.heartbeatAt <= calls[k].readAt)
            && row.value.heartbeatAt <= calls[n - 1].writeAt
    decreases n
  {
    Next(start, calls, n - 1);
    if n > i + 1 {
      HeldSince(start, calls, delta, i, other, ttl, n - 1);
    }
  }

  /** Mutual exclusion under clock skew. Once A's call takes effect at database time t, no
      call of another caller B with ttl takes effect until after t + ttl - delta, however
      many callers interleave, whatever ttl the others use, and whatever fails. */
  lemma Exclusion(start: Row, calls: seq<Call>, delta: int, i: nat, j: nat, ttl: int)
    requires Serialised(calls, delta) && i < j
    requires EffectiveAt(start, calls, i) && EffectiveAt(start, calls, j)
    requires calls[j].caller != calls[i].caller
    requires KeepsTtl(calls, calls[j].caller, ttl, i + 1, j + 1)
    ensures calls[j].writeAt >= calls[j].readAt > calls[i].writeAt + ttl - delta
  {
    HeldSince(start, calls, delta, i, calls[j].caller, ttl, j);
  }

  /** A holder that calls again within its term still holds the lease: nobody gets in between,
      the renewal takes effect exactly if its transaction is committed, and the epoch is the
      same before and after. */
  lemma HeartbeatKeepsLease(start: Row, calls: seq<Call>, delta: int, i: nat, k: nat, ttl: int)
    requires Serialised(calls, delta) && i < k < |calls| && EffectiveAt(start, calls, i)
    requires calls[k].caller == calls[i].caller && calls[k].writeAt - calls[i].writeAt <= ttl - delta
    requires forall j :: i < j < k ==> calls[j].ttl >= ttl
    ensures forall j :: i < j < k && EffectiveAt(start, calls, j) ==> calls[j].caller == calls[i].caller
    ensures Owner(At(start, calls, k)) == Owner(At(start, calls, k + 1)) == calls[i].caller
    ensures EffectiveAt(start, calls, k) <==> calls[k].fate == Committed || calls[k].fate == CommitError(true)
    ensures Epoch(At(start, calls, k + 1)) == Epoch(At(start, calls, k)) == Epoch(At(start, calls, i + 1))
  {
    forall j | i < j < k && EffectiveAt(start, calls, j)
      ensures calls[j].caller == calls[i].caller
    {
      if calls[j].caller != calls[i].caller {
        Exclusion(start, calls, delta, i, j, ttl);
      }
    }
    Next(start, calls, i);
    SameHolder(start, calls, i + 1, k, calls[i].caller);
    Next(start, calls, k);
  }

  lemma {:induction false} SameHolder(start: Row, calls: seq<Call>, lo: nat, hi: nat, holder: string)
    requires lo <= hi <= |calls| && Owner(At(start, calls, lo)) == holder
    requires forall j :: lo <= j < hi && EffectiveAt(start, calls, j) ==> calls[j].caller == holder
    ensures Owner(At(start, calls, hi)) == holder
    ensures Epoch(At(start, calls, hi)) == Epoch(At(start, calls, lo))
    decreases hi
  {
    if lo < hi {
      SameHolder(start, calls, lo, hi - 1, holder);
      Next(start, calls, hi - 1);
    }
  }

  // --- epochs as fencing tokens -----------------------------------------------------

  /** How often ownership changed hands along a run. */
  function Handovers(start: Row, calls: seq<Call>): nat
  {
    if calls == [] then 0
    else
      var n := |calls| - 1;
      Handovers(start, calls[..n]) + if Owner(Run(start, calls[..n])) != Owner(Run(start, calls)) then 1 else 0
  }

  /** The epoch counts handovers: one up on each change of owner, none on a renewal. */
  lemma {:induction false} EpochCountsHandovers(start: Row, calls: seq<Call>)
    ensures Epoch(Run(start, calls)) == Epoch(start) + Handovers(start, calls)
  {
    if calls != [] {
      EpochCountsHandovers(start, calls[..|calls| - 1]);
    }
  }

  /** Epochs never go back, and one epoch never has two owners. */
  lemma {:induction false} EpochHasOneOwner(start: Row, calls: seq<Call>, i: nat, j: nat)
    requires i <= j <= |calls|
    ensures Epoch(At(start, calls, i)) <= Epoch(At(start, calls, j))
    ensures Epoch(At(start, calls, i)) == Epoch(At(start, calls, j)) ==>
              Owner(At(start, calls, i)) == Owner(At(start, calls, j))
    decreases j
  {
    if i < j {
      EpochHasOneOwner(start, calls, i, j - 1);
      Next(start, calls, j - 1);
    }
  }

  // --- the check before a promotion --------------------------------------------------

  /** What reading the peer's row can yield. */
  datatype Read = NoTracker | NoRows | ReadError | Found(lease: Lease)

  datatype Verdict = Pass | PeerUnreadable | PeerFresh

  function CheckPeerLease(read: Read, now: int, ttl: int, self: string): (v: Verdict)
    ensures v == Pass <==>
      || read.NoTracker? || read.NoRows?
      || (read.Found? && (read.lease.owner == self || now - read.lease.heartbeatAt > ttl))
    ensures v == PeerUnreadable <==> read.ReadError?
  {
    match read
    case NoTracker => Pass
    case NoRows => Pass
    case ReadError => PeerUnreadable
    case Found(lease) =>
      if lease.owner == self then Pass
      else if !Expired(lease, now, ttl) then PeerFresh
      else Pass
  }

  /** If the check passes on the row as it stands at database time `at`, then every other
      caller's last write is more than ttl - delta old: the check excludes a live peer. */
  lemma PassedCheckExcludesPeer(start: Row, calls: seq<Call>, delta: int, i: nat, ttl: int,
                                self: string, at: int, now: int)
    requires Serialised(calls, delta) && EffectiveAt(start, calls, i)
    requires calls[i].caller != self
    requires KeepsTtl(calls, self, ttl, i + 1, |calls|)
    requires -delta <= now - at <= delta && calls[|calls| - 1].writeAt <= at
    requires var row := Run(start, calls);
             CheckPeerLease(if row.Some? then Found(row.value) else NoRows, now, ttl, self) == Pass
    ensures at > calls[i].writeAt + ttl - delta
  {
    HeldSince(start, calls, delta, i, self, ttl, |calls|);
    assert calls[..|calls|] == calls;
  }

  /** The row is the one from the start, or its heartbeat is its owner's effective write. */
  predicate Stems(start: Row, calls: seq<Call>, row: Row)
  {
    row == start || exists i :: 0 <= i < |calls| && WroteRow(start, calls, i, row)
  }

  predicate WroteRow(start: Row, calls: seq<Call>, i: nat, row: Row)
  {
    && EffectiveAt(start, calls, i) && row.Some?
    && row.value.owner == calls[i].caller && row.value.heartbeatAt == calls[i].writeAt
  }

  lemma {:induction false} RowStems(start: Row, calls: seq<Call>, n: nat)
    requires n <= |calls|
    ensures Stems(start, calls, At(start, calls, n))
  {
    if n > 0 {
      RowStems(start, calls, n - 1);
      Next(start, calls, n - 1);
      if EffectiveAt(start, calls, n - 1) {
        assert WroteRow(start, calls, n - 1, At(start, calls, n));
      }
    }
  }

  /** The check does let a promotion through: it passes once every effective write of another
      caller, and a row of another owner from before, is more than ttl + delta old. */
  lemma StalePeerPasses(start: Row, calls: seq<Call>, delta: int, ttl: int, self: string, at: int, now: int)
    requires -delta <= now - at <= delta
    requires start.Some? && start.value.owner != self ==> at - start.value.heartbeatAt > ttl + delta
    requires forall i: nat :: EffectiveAt(start, calls, i) && calls[i].caller != self ==>
      at - calls[i].writeAt > ttl + delta
    ensures var row := Run(start, calls);
            CheckPeerLease(if row.Some? then Found(row.value) else NoRows, now, ttl, self) == Pass
  {
    RowStems(start, calls, |calls|);
    assert calls[..|calls|] == calls;
    hide Run, EffectiveAt;
  }

  /** Nobody else's check passes while a holder's last write is at most ttl - delta old: an
      attempt that ends within that time of the last heartbeat is not joined by a peer whose
      check comes during it. */
  lemma AttemptIsShielded(start: Row, calls: seq<Call>, delta: int, i: nat, ttl: int,
                          peer: string, at: int, now: int)
    requires Serialised(calls, delta) && EffectiveAt(start, calls, i)
    requires calls[i].caller != peer && KeepsTtl(calls, peer, ttl, i + 1, |calls|)
    requires -delta <= now - at <= delta && calls[|calls| - 1].writeAt <= at <= calls[i].writeAt + ttl - delta
    ensures var row := Run(start, calls);
            CheckPeerLease(if row.Some? then Found(row.value) else NoRows, now, ttl, peer) == PeerFresh
  {
    HeldSince(start, calls, delta, i, peer, ttl, |calls|);
    assert calls[..|calls|] == calls;
    var row := Run(start, calls);
    hide Run;
    if CheckPeerLease(if row.Some? then Found(row.value) else NoRows, now, ttl, peer) == Pass {
      PassedCheckExcludesPeer(start, calls, delta, i, ttl, peer, at, now);
    }
  }

  /** The bound is tight for every ttl and every skew: with a clock that runs `delta` ahead,
      a takeover comes at the first instant after ttl - delta. */
  lemma SkewShortensTheTerm(dc: string, dr: string, ttl: int, delta: int)
    requires dc != "" && dr != "" && dc != dr && 0 <= delta <= ttl
    ensures var w := ttl - delta + 1;
            var calls := [Call(dc, ttl, 0, 0, 0, Committed), Call(dr, ttl, w, w + delta, w, Committed)];
            && Serialised(calls, delta)
            && EffectiveAt(Some(Seed(0)), calls, 0) && EffectiveAt(Some(Seed(0)), calls, 1)
            && calls[1].writeAt == calls[0].writeAt + ttl - delta + 1
  {
    var w := ttl - delta + 1;
    var calls := [Call(dc, ttl, 0, 0, 0, Committed), Call(dr, ttl, w, w + delta, w, Committed)];
    Next(Some(Seed(0)), calls, 0);
    assert calls[..0] == [];
  }
}

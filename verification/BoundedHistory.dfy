/** The skip history kept on the resource, pruned by age and capped at 50 entries
    (internal/controller/replication_errors.go), against the unbounded log of every
    entry ever appended to it. */
module BoundedHistory {
  const HISTORY_CAP := 50

  datatype Skip = Skip(gtid: string, errno: int, at: int, dryRun: bool)

  function CountSince(s: seq<Skip>, cutoff: int): (n: nat)
    ensures n <= |s|
  {
    if s == [] then 0
    else CountSince(s[..|s| - 1], cutoff) + if s[|s| - 1].at >= cutoff then 1 else 0
  }

  /** The entries of the closed interval [lo, hi]. */
  function CountIn(s: seq<Skip>, lo: int, hi: int): (n: nat)
    ensures n <= |s|
  {
    if s == [] then 0
    else CountIn(s[..|s| - 1], lo, hi) + if lo <= s[|s| - 1].at <= hi then 1 else 0
  }

  /** The entries no older than the cutoff, in order. */
  function Since(s: seq<Skip>, cutoff: int): seq<Skip>
  {
    if s == [] then []
    else Since(s[..|s| - 1], cutoff) + if s[|s| - 1].at >= cutoff then [s[|s| - 1]] else []
  }

  /** The most recent entries, up to the cap. */
  function Newest(s: seq<Skip>): seq<Skip>
  {
    if |s| <= HISTORY_CAP then s else s[|s| - HISTORY_CAP..]
  }

  function Capped(history: seq<Skip>, entries: seq<Skip>): seq<Skip> { Newest(history + entries) }

  /** One status update: prune what is older than `oldest`, then append under the cap. */
  function Updated(history: seq<Skip>, oldest: int, entries: seq<Skip>): seq<Skip>
  {
    Capped(Since(history, oldest), entries)
  }

  method PruneSkipsByRetention(history: seq<Skip>, retention: int, now: int) returns (kept: seq<Skip>)
    ensures kept == if retention <= 0 then history else Since(history, now - retention)
    ensures forall e ::
              multiset(kept)[e] == if retention <= 0 || e.at >= now - retention then multiset(history)[e] else 0
  {
    if retention <= 0 {
      return history;
    }
    var cutoff := now - retention;
    kept := [];
    for i := 0 to |history|
      invariant kept == Since(history[..i], cutoff)
    {
      assert history[..i + 1][..i] == history[..i];
      if history[i].at >= cutoff {
        kept := kept + [history[i]];
      }
    }
    assert history[..|history|] == history;
    SinceKeepsAll(history, cutoff);
  }

  // --- what the counts and the pruning mean -------------------------------------------------

  /** One more entry adds its position to those that satisfy the cutoff, or not. */
  lemma PositionsSnoc(s: seq<Skip>, cutoff: int)
    requires s != []
    ensures var n := |s| - 1;
            (set i | 0 <= i < |s| && s[i].at >= cutoff) ==
              (set i | 0 <= i < n && s[..n][i].at >= cutoff) + if s[n].at >= cutoff then {n} else {}
  {
  }

  lemma {:induction false} CountSinceIsCardinality(s: seq<Skip>, cutoff: int)
    ensures CountSince(s, cutoff) == |set i | 0 <= i < |s| && s[i].at >= cutoff|
  {
    if s != [] {
      CountSinceIsCardinality(s[..|s| - 1], cutoff);
      PositionsSnoc(s, cutoff);
    }
  }

  lemma {:induction false} CountInIsDifference(s: seq<Skip>, lo: int, hi: int)
    requires lo <= hi
    ensures CountIn(s, lo, hi) == CountSince(s, lo) - CountSince(s, hi + 1)
  {
    if s != [] {
      CountInIsDifference(s[..|s| - 1], lo, hi);
    }
  }

  /** Pruning keeps every entry at or after the cutoff as often as it was there, and no other. */
  lemma {:induction false} SinceKeeps(s: seq<Skip>, cutoff: int, e: Skip)
    ensures multiset(Since(s, cutoff))[e] == if e.at >= cutoff then multiset(s)[e] else 0
  {
    if s != [] {
      var n := |s| - 1;
      var init, last := s[..n], s[n];
      SinceKeeps(init, cutoff, e);
      assert multiset(s)[e] == multiset(init)[e] + multiset([last])[e] by {
        assert s == init + [last];
      }
      if last.at < cutoff {
        assert Since(s, cutoff) == Since(init, cutoff);
      }
    }
  }

  lemma SinceKeepsAll(s: seq<Skip>, cutoff: int)
    ensures forall e :: multiset(Since(s, cutoff))[e] == if e.at >= cutoff then multiset(s)[e] else 0
  {
    forall e ensures multiset(Since(s, cutoff))[e] == if e.at >= cutoff then multiset(s)[e] else 0 {
      SinceKeeps(s, cutoff, e);
    }
  }

  // --- counting ---------------------------------------------------------------------------

  lemma CountSnoc(s: seq<Skip>, e: Skip, cutoff: int)
    ensures CountSince(s + [e], cutoff) == CountSince(s, cutoff) + if e.at >= cutoff then 1 else 0
  {
    assert (s + [e])[..|s|] == s;
  }

  lemma {:induction false} CountSinceAppend(a: seq<Skip>, b: seq<Skip>, cutoff: int)
    ensures CountSince(a + b, cutoff) == CountSince(a, cutoff) + CountSince(b, cutoff)
  {
    if b == [] {
      assert a + b == a;
    } else {
      var n := |b| - 1;
      CountSinceAppend(a, b[..n], cutoff);
      assert a + b == (a + b[..n]) + [b[n]];
      CountSnoc(a + b[..n], b[n], cutoff);
    }
  }

  lemma {:induction false} AllCount(s: seq<Skip>, cutoff: int)
    requires forall i :: 0 <= i < |s| ==> s[i].at >= cutoff
    ensures CountSince(s, cutoff) == |s|
  {
    if s != [] {
      AllCount(s[..|s| - 1], cutoff);
    }
  }

  lemma {:induction false} AllIn(s: seq<Skip>, lo: int, hi: int)
    requires forall i :: 0 <= i < |s| ==> lo <= s[i].at <= hi
    ensures CountIn(s, lo, hi) == |s|
  {
    if s != [] {
      AllIn(s[..|s| - 1], lo, hi);
    }
  }

  lemma {:induction false} NoneSince(s: seq<Skip>, cutoff: int)
    requires forall i :: 0 <= i < |s| ==> s[i].at < cutoff
    ensures Since(s, cutoff) == []
  {
    if s != [] {
      NoneSince(s[..|s| - 1], cutoff);
    }
  }

  lemma {:induction false} CountInWithinSince(s: seq<Skip>, lo: int, hi: int, cutoff: int)
    requires cutoff <= lo
    ensures CountIn(s, lo, hi) <= CountSince(s, cutoff)
  {
    if s != [] {
      CountInWithinSince(s[..|s| - 1], lo, hi, cutoff);
    }
  }

  // --- order ------------------------------------------------------------------------------

  predicate Sorted(s: seq<Skip>)
  {
    |s| > 1 ==> Sorted(s[..|s| - 1]) && s[|s| - 2].at <= s[|s| - 1].at
  }

  predicate EndsBy(s: seq<Skip>, now: int) { s != [] ==> s[|s| - 1].at <= now }

  lemma SortedSnoc(s: seq<Skip>, e: Skip)
    requires Sorted(s) && EndsBy(s, e.at)
    ensures Sorted(s + [e])
  {
    assert (s + [e])[..|s|] == s;
  }

  lemma {:induction false} SortedAppend(s: seq<Skip>, pending: seq<Skip>, t: int)
    requires Sorted(s) && EndsBy(s, t) && forall i :: 0 <= i < |pending| ==> pending[i].at == t
    ensures Sorted(s + pending) && EndsBy(s + pending, t)
  {
    if pending == [] {
      assert s + pending == s;
    } else {
      var n := |pending| - 1;
      SortedAppend(s, pending[..n], t);
      SortedSnoc(s + pending[..n], pending[n]);
      assert s + pending == (s + pending[..n]) + [pending[n]];
    }
  }

  lemma {:induction false} SortedSuffix(s: seq<Skip>, k: nat)
    requires Sorted(s) && k <= |s|
    ensures Sorted(s[k..])
    decreases |s|
  {
    if k < |s| {
      var n := |s| - 1;
      SortedSuffix(s[..n], k);
      assert s[k..][..n - k] == s[..n][k..];
    }
  }

  lemma {:induction false} SinceKeepsOrder(s: seq<Skip>, cutoff: int, now: int)
    requires Sorted(s) && EndsBy(s, now)
    ensures Sorted(Since(s, cutoff)) && EndsBy(Since(s, cutoff), now) && |Since(s, cutoff)| <= |s|
  {
    if s != [] {
      var n := |s| - 1;
      var kept := Since(s[..n], cutoff);
      SinceKeepsOrder(s[..n], cutoff, s[n].at);
      if s[n].at >= cutoff {
        SortedSnoc(kept, s[n]);
      } else {
        assert Since(s, cutoff) == kept;
      }
    }
  }

  lemma {:induction false} SinceCount(s: seq<Skip>, oldest: int, cutoff: int)
    requires oldest <= cutoff
    ensures CountSince(Since(s, oldest), cutoff) == CountSince(s, cutoff)
  {
    if s != [] {
      var n := |s| - 1;
      var kept := Since(s[..n], oldest);
      SinceCount(s[..n], oldest, cutoff);
      if s[n].at >= oldest {
        CountSnoc(kept, s[n], cutoff);
      } else {
        assert Since(s, oldest) == kept;
      }
    }
  }

  lemma {:induction false} OldEnd(s: seq<Skip>, cutoff: int)
    requires Sorted(s) && s != [] && s[|s| - 1].at < cutoff
    ensures CountSince(s, cutoff) == 0
  {
    if |s| > 1 {
      OldEnd(s[..|s| - 1], cutoff);
    }
  }

  function Min(a: nat, b: nat): nat { if a <= b then a else b }

  /** The newest m entries of a sorted sequence contain the in-window ones first. */
  lemma {:induction false} CountSuffix(s: seq<Skip>, m: nat, cutoff: int)
    requires Sorted(s) && m <= |s|
    ensures CountSince(s[|s| - m..], cutoff) == Min(CountSince(s, cutoff), m)
  {
    if m > 0 {
      var n := |s| - 1;
      var suffix := s[|s| - m..];
      if s[n].at < cutoff {
        SortedSuffix(s, |s| - m);
        OldEnd(s, cutoff);
        OldEnd(suffix, cutoff);
      } else {
        CountSuffix(s[..n], m - 1, cutoff);
        assert suffix[..m - 1] == s[..n][n - (m - 1)..];
      }
    }
  }

  // --- runs of status updates ---------------------------------------------------------------

  /** One status update at time `updateAt`, appending entries all stamped `skipAt`. */
  datatype Update = Update(entries: seq<Skip>, skipAt: int, updateAt: int)

  function History(updates: seq<Update>, retention: int): seq<Skip>
  {
    if updates == [] then []
    else
      var u := updates[|updates| - 1];
      Updated(History(updates[..|updates| - 1], retention), u.updateAt - retention, u.entries)
  }

  function Log(updates: seq<Update>): seq<Skip>
  {
    if updates == [] then [] else Log(updates[..|updates| - 1]) + updates[|updates| - 1].entries
  }

  /** The run is over by time `now`. */
  predicate OverBy(updates: seq<Update>, now: int)
  {
    updates != [] ==> updates[|updates| - 1].updateAt <= now
  }

  predicate Stamped(u: Update) { forall i :: 0 <= i < |u.entries| ==> u.entries[i].at == u.skipAt }

  /** Time never goes back, within an update or between updates. */
  predicate InOrder(updates: seq<Update>)
  {
    updates != [] ==>
      var init, u := updates[..|updates| - 1], updates[|updates| - 1];
      InOrder(init) && OverBy(init, u.skipAt) && u.skipAt <= u.updateAt && Stamped(u)
  }

  lemma NewestIsSorted(s: seq<Skip>, t: int)
    requires Sorted(s) && EndsBy(s, t)
    ensures Sorted(Newest(s)) && EndsBy(Newest(s), t) && |Newest(s)| <= 50
  {
    if |s| > HISTORY_CAP {
      SortedSuffix(s, |s| - HISTORY_CAP);
    }
  }

  lemma NewestCount(s: seq<Skip>, cutoff: int)
    requires Sorted(s)
    ensures CountSince(Newest(s), cutoff) == Min(CountSince(s, cutoff), 50)
  {
    if |s| > HISTORY_CAP {
      CountSuffix(s, HISTORY_CAP, cutoff);
    }
  }

  lemma UpdatedIsSorted(history: seq<Skip>, oldest: int, entries: seq<Skip>, t: int)
    requires Sorted(history) && EndsBy(history, t) && forall i :: 0 <= i < |entries| ==> entries[i].at == t
    ensures var h := Updated(history, oldest, entries);
            Sorted(h) && EndsBy(h, t) && |h| <= 50
  {
    SinceKeepsOrder(history, oldest, t);
    SortedAppend(Since(history, oldest), entries, t);
    NewestIsSorted(Since(history, oldest) + entries, t);
  }

  lemma UpdatedCount(history: seq<Skip>, oldest: int, entries: seq<Skip>, t: int, cutoff: int)
    requires Sorted(history) && EndsBy(history, t) && forall i :: 0 <= i < |entries| ==> entries[i].at == t
    requires oldest <= cutoff
    ensures CountSince(Updated(history, oldest, entries), cutoff) ==
              Min(CountSince(history, cutoff) + CountSince(entries, cutoff), 50)
  {
    var pruned := Since(history, oldest);
    SinceKeepsOrder(history, oldest, t);
    SortedAppend(pruned, entries, t);
    NewestCount(pruned + entries, cutoff);
    CountSinceAppend(pruned, entries, cutoff);
    SinceCount(history, oldest, cutoff);
  }

  lemma {:induction false} HistoryIsSorted(updates: seq<Update>, retention: int, now: int)
    requires InOrder(updates) && OverBy(updates, now)
    ensures var h := History(updates, retention);
            Sorted(h) && EndsBy(h, now) && |h| <= 50
  {
    if updates != [] {
      var init, u := updates[..|updates| - 1], updates[|updates| - 1];
      HistoryIsSorted(init, retention, u.skipAt);
      UpdatedIsSorted(History(init, retention), u.updateAt - retention, u.entries, u.skipAt);
    }
  }

  lemma CountStep(history: seq<Skip>, log: seq<Skip>, oldest: int, entries: seq<Skip>, t: int, cutoff: int)
    requires Sorted(history) && EndsBy(history, t) && forall i :: 0 <= i < |entries| ==> entries[i].at == t
    requires oldest <= cutoff
    requires CountSince(history, cutoff) == Min(CountSince(log, cutoff), 50)
    ensures CountSince(Updated(history, oldest, entries), cutoff) == Min(CountSince(log + entries, cutoff), 50)
  {
    UpdatedCount(history, oldest, entries, t, cutoff);
    CountSinceAppend(log, entries, cutoff);
  }

  /** Counting in the history instead of the log only saturates at the cap: what pruning
      and capping drop never matters to a window within the retention. */
  lemma {:induction false} HistoryCount(updates: seq<Update>, retention: int, cutoff: int, now: int)
    requires InOrder(updates) && OverBy(updates, now) && now - retention <= cutoff
    ensures CountSince(History(updates, retention), cutoff) == Min(CountSince(Log(updates), cutoff), 50)
  {
    if updates != [] {
      var init, u := updates[..|updates| - 1], updates[|updates| - 1];
      HistoryCount(init, retention, cutoff, u.skipAt);
      HistoryIsSorted(init, retention, u.skipAt);
      CountStep(History(init, retention), Log(init), u.updateAt - retention, u.entries, u.skipAt, cutoff);
    }
  }

  // --- a sliding-window limit -----------------------------------------------------------------

  /** Every entry had room in the window that ended with it. */
  predicate Limited(log: seq<Skip>, window: int, limit: int)
  {
    log != [] ==>
      Limited(log[..|log| - 1], window, limit) && CountSince(log, log[|log| - 1].at - window) <= limit
  }

  lemma LimitedSnoc(log: seq<Skip>, e: Skip, window: int, limit: int)
    requires Limited(log, window, limit) && CountSince(log, e.at - window) < limit
    ensures Limited(log + [e], window, limit)
  {
    assert (log + [e])[..|log|] == log;
    CountSnoc(log, e, e.at - window);
  }

  /** Appending simultaneous entries that fit keeps the limit. */
  lemma {:induction false} LimitedAppend(log: seq<Skip>, p: seq<Skip>, t: int, window: int, limit: int)
    requires Limited(log, window, limit) && window >= 0
    requires forall i :: 0 <= i < |p| ==> p[i].at == t
    requires p != [] ==> CountSince(log, t - window) + |p| <= limit
    ensures Limited(log + p, window, limit)
  {
    if p == [] {
      assert log + p == log;
    } else {
      hide Limited, CountSince;
      var init, last := p[..|p| - 1], p[|p| - 1];
      LimitedAppend(log, init, t, window, limit);
      AllCount(init, t - window);
      CountSinceAppend(log, init, t - window);
      LimitedSnoc(log + init, last, window, limit);
      assert log + p == (log + init) + [last];
    }
  }

  /** Room at each append bounds every closed interval of the window's length. */
  lemma {:induction false} LimitedMeansWindows(log: seq<Skip>, window: int, limit: nat, lo: int)
    requires Limited(log, window, limit)
    ensures CountIn(log, lo, lo + window) <= limit
  {
    if log != [] {
      var last := log[|log| - 1];
      if lo <= last.at <= lo + window {
        CountInWithinSince(log, lo, lo + window, last.at - window);
      } else {
        LimitedMeansWindows(log[..|log| - 1], window, limit, lo);
      }
    }
  }
}

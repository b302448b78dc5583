/** What holds of the auto-skip machinery over whole runs of reconciles, stated about
    the unbounded log of skips rather than the bounded history the code looks at. */
module SkipRuns {
  import opened Text
  import opened BoundedHistory
  import opened SkipHistory
  import GtidText
  import SqlText

  /** The status, and everything ever recorded on it. */
  datatype State = State(status: Status, updates: seq<Update>)

  const START := State(INITIAL, [])

  function Next(cfg: Config, s: State, c: Cycle): State
  {
    State(After(cfg, s.status, c), s.updates + [Update(Skipped(cfg, s.status, c), c.skipAt, c.updateAt)])
  }

  function Run(cfg: Config, cycles: seq<Cycle>): State
  {
    if cycles == [] then START else Next(cfg, Run(cfg, cycles[..|cycles| - 1]), cycles[|cycles| - 1])
  }

  /** Every skip a run ever recorded, in order. */
  function SkipLog(cfg: Config, cycles: seq<Cycle>): seq<Skip> { Log(Run(cfg, cycles).updates) }

  predicate Before(cycles: seq<Cycle>, now: int)
  {
    cycles != [] ==> cycles[|cycles| - 1].updateAt <= now
  }

  /** Time never goes back, within a cycle or between cycles. */
  predicate Ordered(cycles: seq<Cycle>)
  {
    cycles != [] ==>
      var init, c := cycles[..|cycles| - 1], cycles[|cycles| - 1];
      Ordered(init) && Before(init, c.skipAt) && c.skipAt <= c.updateAt
  }

  lemma LogSnoc(updates: seq<Update>, u: Update)
    ensures Log(updates + [u]) == Log(updates) + u.entries
  {
    assert (updates + [u])[..|updates|] == updates;
  }

  lemma UpdatesSnoc(updates: seq<Update>, u: Update, retention: int)
    ensures History(updates + [u], retention) == Updated(History(updates, retention), u.updateAt - retention, u.entries)
    ensures InOrder(updates) && OverBy(updates, u.skipAt) && u.skipAt <= u.updateAt && Stamped(u) ==>
              InOrder(updates + [u])
  {
    assert (updates + [u])[..|updates|] == updates;
  }

  lemma AfterHistory(cfg: Config, st: Status, c: Cycle)
    requires cfg.Effective() && |Since(st.skipped, c.updateAt - cfg.retention)| <= 50
    ensures After(cfg, st, c).skipped == Updated(st.skipped, c.updateAt - cfg.retention, Skipped(cfg, st, c))
  {
    var pruned := Since(st.skipped, c.updateAt - cfg.retention);
    assert pruned + [] == pruned;
  }

  /** The history on the status is the bounded history of the recorded updates. */
  predicate Tracks(cfg: Config, s: State, now: int)
  {
    && InOrder(s.updates) && OverBy(s.updates, now)
    && s.status.skipped == History(s.updates, cfg.retention)
  }

  lemma NextTracks(cfg: Config, s: State, c: Cycle)
    requires cfg.Effective() && Tracks(cfg, s, c.skipAt) && c.skipAt <= c.updateAt
    ensures Tracks(cfg, Next(cfg, s, c), c.updateAt)
  {
    hide After, Skipped, History, Since, Updated, Sorted, InOrder;
    var u := Update(Skipped(cfg, s.status, c), c.skipAt, c.updateAt);
    HistoryIsSorted(s.updates, cfg.retention, c.skipAt);
    SinceKeepsOrder(s.status.skipped, c.updateAt - cfg.retention, c.skipAt);
    AfterHistory(cfg, s.status, c);
    UpdatesSnoc(s.updates, u, cfg.retention);
  }

  lemma {:induction false} RunTracks(cfg: Config, cycles: seq<Cycle>, now: int)
    requires cfg.Effective() && Ordered(cycles) && Before(cycles, now)
    ensures Tracks(cfg, Run(cfg, cycles), now)
  {
    if cycles != [] {
      var init, c := cycles[..|cycles| - 1], cycles[|cycles| - 1];
      hide After, Skipped, Tracks;
      RunTracks(cfg, init, c.skipAt);
      NextTracks(cfg, Run(cfg, init), c);
    }
  }

  /** What the code counts in its history, against what the log holds. */
  lemma RunCount(cfg: Config, cycles: seq<Cycle>, now: int, window: int)
    requires cfg.Effective() && Ordered(cycles) && Before(cycles, now) && window <= cfg.retention
    ensures CountSince(Run(cfg, cycles).status.skipped, now - window) ==
              Min(CountSince(SkipLog(cfg, cycles), now - window), 50)
  {
    RunTracks(cfg, cycles, now);
    hide Run, History, Log, CountSince, InOrder, Ordered, Min;
    HistoryCount(Run(cfg, cycles).updates, cfg.retention, now - window, now);
  }

  // --- what is skipped ---------------------------------------------------------------------------

  lemma {:induction false} InjectedIff(cfg: Config, history: seq<Skip>, errors: seq<Observed>, now: int)
    ensures Injected(cfg, history, errors, now) != [] <==>
      && !cfg.dryRun && CountSince(history, now - cfg.window) < cfg.maxPerWindow
      && exists e :: e in errors && e.errno in cfg.whitelist && e.gtid != ""
    ensures !cfg.dryRun && Injected(cfg, history, errors, now) == [] ==> Admit(cfg, history, errors, now) == []
  {
    if errors != [] {
      InjectedIff(cfg, history, errors[..|errors| - 1], now);
      NothingOnRecord(now - cfg.window);
      hide CountSince;
    }
  }

  lemma {:induction false} AdmitIff(cfg: Config, history: seq<Skip>, errors: seq<Observed>, now: int)
    ensures Admit(cfg, history, errors, now) != [] <==>
      && CountSince(history, now - cfg.window) < cfg.maxPerWindow
      && exists e :: e in errors && e.errno in cfg.whitelist && e.gtid != "" && (cfg.dryRun || e.injectable)
  {
    if errors != [] {
      AdmitIff(cfg, history, errors[..|errors| - 1], now);
      NothingOnRecord(now - cfg.window);
      hide CountSince;
    }
  }

  /** When a cycle issues SQL, and when it records a skip. */
  lemma SkipsIff(cfg: Config, st: Status, c: Cycle)
    ensures Sql(cfg, st, c) != [] <==>
      && cfg.enabled && !cfg.dryRun && c.detection.Seen? && c.detection.hasSkipper && st.quarantinedSince.None?
      && CountSince(st.skipped, c.skipAt - cfg.window) < cfg.maxPerWindow
      && exists e :: e in c.detection.errors && e.errno in cfg.whitelist && e.gtid != ""
    ensures Skipped(cfg, st, c) != [] <==>
      && cfg.enabled && c.detection.Seen? && c.detection.hasSkipper && st.quarantinedSince.None?
      && CountSince(st.skipped, c.skipAt - cfg.window) < cfg.maxPerWindow
      && exists e :: e in c.detection.errors && e.errno in cfg.whitelist && e.gtid != "" && (cfg.dryRun || e.injectable)
  {
    if c.detection.Seen? {
      InjectedIff(cfg, st.skipped, c.detection.errors, c.skipAt);
      AdmitIff(cfg, st.skipped, c.detection.errors, c.skipAt);
    }
    hide Admit, Injected, CountSince;
  }

  lemma {:induction false} OnlyAdmissible(cfg: Config, history: seq<Skip>, errors: seq<Observed>, now: int)
    ensures forall g :: g in Injected(cfg, history, errors, now) ==>
              exists e :: e in errors && e.gtid == g != "" && e.errno in cfg.whitelist
    ensures forall s :: s in Admit(cfg, history, errors, now) ==>
              && s.at == now && s.dryRun == cfg.dryRun && s.gtid != "" && s.errno in cfg.whitelist
              && exists e :: e in errors && e.gtid == s.gtid && e.errno == s.errno && (cfg.dryRun || e.injectable)
  {
    if errors != [] {
      var before, last := errors[..|errors| - 1], errors[|errors| - 1];
      OnlyAdmissible(cfg, history, before, now);
      assert last in errors && forall e :: e in before ==> e in errors;
      hide CountSince;
    }
  }

  /** Whatever a run records had its GTID known and its error number whitelisted, while
      skipping was on, and is marked as a dry run exactly in a dry run. */
  lemma {:induction false} LogIsAdmissible(cfg: Config, cycles: seq<Cycle>)
    ensures forall s :: s in SkipLog(cfg, cycles) ==>
              cfg.enabled && s.gtid != "" && s.errno in cfg.whitelist && s.dryRun == cfg.dryRun
  {
    if cycles != [] {
      var init, c := cycles[..|cycles| - 1], cycles[|cycles| - 1];
      LogIsAdmissible(cfg, init);
      SkipLogSnoc(cfg, cycles);
      if c.detection.Seen? {
        OnlyAdmissible(cfg, Run(cfg, init).status.skipped, c.detection.errors, c.skipAt);
      }
      hide Run, SkipLog, Admit;
    }
  }

  // --- the rate limit ---------------------------------------------------------------------------

  /** One cycle never records more than the history leaves room for. */
  lemma {:induction false} AdmitFits(cfg: Config, hist: seq<Skip>, errors: seq<Observed>, now: int)
    requires cfg.window >= 0
    ensures var p := Admit(cfg, hist, errors, now);
            p != [] ==> CountSince(hist, now - cfg.window) + |p| <= cfg.maxPerWindow
  {
    if errors != [] {
      var before := errors[..|errors| - 1];
      AdmitFits(cfg, hist, before, now);
      AllCount(Admit(cfg, hist, before, now), now - cfg.window);
    }
  }

  lemma NextIsLimited(cfg: Config, st: Status, log: seq<Skip>, c: Cycle)
    requires 0 <= cfg.window && cfg.maxPerWindow <= 50
    requires CountSince(st.skipped, c.skipAt - cfg.window) == Min(CountSince(log, c.skipAt - cfg.window), 50)
    requires Limited(log, cfg.window, cfg.maxPerWindow)
    ensures Limited(log + Skipped(cfg, st, c), cfg.window, cfg.maxPerWindow)
  {
    if Skipping(cfg, st, c) {
      AdmitFits(cfg, st.skipped, c.detection.errors, c.skipAt);
    }
    LimitedAppend(log, Skipped(cfg, st, c), c.skipAt, cfg.window, cfg.maxPerWindow);
  }

  lemma StepIsLimited(cfg: Config, init: seq<Cycle>, c: Cycle)
    requires cfg.Effective() && cfg.maxPerWindow <= 50 && cfg.window <= cfg.retention
    requires Ordered(init) && Before(init, c.skipAt)
    requires Limited(SkipLog(cfg, init), cfg.window, cfg.maxPerWindow)
    ensures Limited(SkipLog(cfg, init) + Skipped(cfg, Run(cfg, init).status, c), cfg.window, cfg.maxPerWindow)
  {
    hide Skipped, Run, SkipLog, Limited, CountSince, Min, Ordered, Before;
    RunCount(cfg, init, c.skipAt, cfg.window);
    NextIsLimited(cfg, Run(cfg, init).status, SkipLog(cfg, init), c);
  }

  lemma {:induction false} RunIsLimited(cfg: Config, cycles: seq<Cycle>)
    requires cfg.Effective() && cfg.maxPerWindow <= 50 && cfg.window <= cfg.retention && Ordered(cycles)
    ensures Limited(SkipLog(cfg, cycles), cfg.window, cfg.maxPerWindow)
  {
    if cycles == [] {
      NothingLogged(cfg);
    } else {
      hide Config.Effective, Skipped, Run, SkipLog, Limited, Ordered, Before;
      OrderedInit(cycles);
      RunIsLimited(cfg, cycles[..|cycles| - 1]);
      StepIsLimited(cfg, cycles[..|cycles| - 1], cycles[|cycles| - 1]);
      SkipLogSnoc(cfg, cycles);
    }
  }

  lemma NothingLogged(cfg: Config)
    ensures Limited(SkipLog(cfg, []), cfg.window, cfg.maxPerWindow)
  {
  }

  lemma OrderedInit(cycles: seq<Cycle>)
    requires Ordered(cycles) && cycles != []
    ensures var init, c := cycles[..|cycles| - 1], cycles[|cycles| - 1];
            Ordered(init) && Before(init, c.skipAt) && c.skipAt <= c.updateAt
  {
  }

  lemma SkipLogSnoc(cfg: Config, cycles: seq<Cycle>)
    requires cycles != []
    ensures var init, c := cycles[..|cycles| - 1], cycles[|cycles| - 1];
            SkipLog(cfg, cycles) == SkipLog(cfg, init) + Skipped(cfg, Run(cfg, init).status, c)
  {
    var init, c := cycles[..|cycles| - 1], cycles[|cycles| - 1];
    var s := Run(cfg, init);
    hide After, Skipped;
    LogSnoc(s.updates, Update(Skipped(cfg, s.status, c), c.skipAt, c.updateAt));
  }

  /** Over any run of reconciles, every closed interval of length Window holds at most
      MaxSkipsPerWindow recorded skips, whatever is pruned or capped away and however many
      errors one cycle sees. */
  lemma SkipsPerWindow(cfg: Config, cycles: seq<Cycle>, lo: int)
    requires cfg.Effective() && cfg.maxPerWindow <= 50 && cfg.window <= cfg.retention && Ordered(cycles)
    ensures InWindow(cfg, cycles, lo) <= cfg.maxPerWindow
  {
    hide Run;
    var log := SkipLog(cfg, cycles);
    RunIsLimited(cfg, cycles);
    LimitedMeansWindows(log, cfg.window, cfg.maxPerWindow, lo);
  }

  // --- and it needs both conditions ----------------------------------------------------------------

  /** Skips recorded by a run in the window that starts at lo. */
  function InWindow(cfg: Config, cycles: seq<Cycle>, lo: int): nat
  {
    CountIn(SkipLog(cfg, cycles), lo, lo + cfg.window)
  }

  ghost predicate LimitHolds(cfg: Config)
  {
    forall cycles, lo :: Ordered(cycles) && AllGenuine(cycles) ==> InWindow(cfg, cycles, lo) <= cfg.maxPerWindow
  }

  predicate AllGenuine(cycles: seq<Cycle>) { forall i :: 0 <= i < |cycles| ==> Genuine(cycles[i]) }

  function Power10(d: nat): nat { if d == 0 then 1 else 10 * Power10(d - 1) }

  lemma {:induction false} DecLength(n: nat, d: nat)
    requires d > 0 && n < Power10(d)
    ensures |Dec(n)| <= d
  {
    if n >= 10 {
      DecLength(n / 10, d - 1);
    }
  }

  const LAST_NUMBER := 10_000_000_000

  lemma TenDigits()
    ensures Power10(10) == LAST_NUMBER
  {
    assert Power10(4) == 10_000;
    assert Power10(7) == 1000 * Power10(4);
    assert Power10(10) == 1000 * Power10(7);
  }

  /** The n-th transaction of one source, failing on a named channel. */
  function Failing(errno: int, n: nat): (e: Observed)
    ensures e.errno == errno && e.gtid != "" && e.injectable
  {
    Observed("dc-to-dr", errno, GtidText.SAMPLE_UUID + [':'] + Dec(n), true)
  }

  lemma FailingIsAccepted(errno: int, n: nat)
    requires n < LAST_NUMBER
    ensures SqlText.Accepts(Failing(errno, n).channel, Failing(errno, n).gtid)
  {
    TenDigits();
    DecLength(n, 10);
    GtidText.SampleIsLegal();
    var u, d := GtidText.SAMPLE_UUID, Dec(n);
    assert |u| == 36;
    hide Dec, Power10;
    assert forall i :: 0 <= i < 36 ==> SqlText.GtidChar(u[i]);
    assert forall i :: 0 <= i < |d| ==> SqlText.GtidChar(d[i]);
  }

  /** The k transactions after the first `seen`. */
  function Burst(errno: int, seen: nat, k: nat): (errors: seq<Observed>)
    ensures |errors| == k
  {
    if k == 0 then [] else Burst(errno, seen, k - 1) + [Failing(errno, seen + k)]
  }

  lemma {:induction false} BurstIsAccepted(errno: int, seen: nat, k: nat)
    requires seen + k < LAST_NUMBER
    ensures forall e :: e in Burst(errno, seen, k) ==> e.errno == errno && SqlText.Accepts(e.channel, e.gtid)
  {
    if k > 0 {
      assert Failing(errno, seen + k).errno == errno;
      hide SqlText.Accepts, Failing;
      BurstIsAccepted(errno, seen, k - 1);
      FailingIsAccepted(errno, seen + k);
    }
  }

  lemma AdmitOneMore(cfg: Config, history: seq<Skip>, errors: seq<Observed>, e: Observed, now: int)
    requires e.errno in cfg.whitelist && e.gtid != "" && e.injectable && cfg.window > 0
    ensures var p := Admit(cfg, history, errors, now);
            |Admit(cfg, history, errors + [e], now)| ==
              if CountSince(history, now - cfg.window) + |p| < cfg.maxPerWindow then |p| + 1 else |p|
  {
    assert (errors + [e])[..|errors|] == errors;
    AllCount(Admit(cfg, history, errors, now), now - cfg.window);
  }

  lemma {:induction false} BurstFillsWindow(cfg: Config, history: seq<Skip>, errno: int, seen: nat, k: nat, now: int)
    requires cfg.Effective() && errno in cfg.whitelist
    ensures var room := cfg.maxPerWindow - CountSince(history, now - cfg.window);
            |Admit(cfg, history, Burst(errno, seen, k), now)| ==
              if room <= 0 then 0 else if k <= room then k else room
  {
    if k > 0 {
      hide Admit, CountSince, Failing;
      BurstFillsWindow(cfg, history, errno, seen, k - 1, now);
      AdmitOneMore(cfg, history, Burst(errno, seen, k - 1), Failing(errno, seen + k), now);
    } else {
      assert Admit(cfg, history, [], now) == [];
    }
  }

  function BurstAt(cfg: Config, errno: int, seen: nat, t: int): Cycle
    requires cfg.maxPerWindow >= 0
  {
    Cycle(Seen(Burst(errno, seen, cfg.maxPerWindow), true), "", t, t)
  }

  /** A burst on an unquarantined state fills the room its history shows. */
  lemma BurstSkips(cfg: Config, st: Status, errno: int, seen: nat, t: int)
    requires cfg.Effective() && cfg.enabled && errno in cfg.whitelist && st.quarantinedSince.None?
    ensures |Skipped(cfg, st, BurstAt(cfg, errno, seen, t))| ==
              var room := cfg.maxPerWindow - CountSince(st.skipped, t - cfg.window);
              if room <= 0 then 0 else room
  {
    BurstFillsWindow(cfg, st.skipped, errno, seen, cfg.maxPerWindow, t);
  }

  /** A blind cycle lifts quarantine, skips nothing, and prunes. */
  lemma BlindCycle(cfg: Config, st: Status, c: Cycle)
    requires cfg.Effective() && c.detection.Blind?
    ensures Skipped(cfg, st, c) == [] && After(cfg, st, c).quarantinedSince == None
    ensures After(cfg, st, c).skipped == Since(st.skipped, c.updateAt - cfg.retention)
  {
  }

  lemma Unrolled(cfg: Config, a: Cycle, b: Cycle, c: Cycle)
    ensures Run(cfg, [a, b, c]) == Next(cfg, Next(cfg, Next(cfg, START, a), b), c)
    ensures a.skipAt <= a.updateAt <= b.skipAt <= b.updateAt <= c.skipAt <= c.updateAt ==> Ordered([a, b, c])
  {
    assert [a][..0] == [] && [a, b][..1] == [a] && [a, b, c][..2] == [a, b];
    assert Run(cfg, [a]) == Next(cfg, Run(cfg, []), a);
    assert Run(cfg, [a, b]) == Next(cfg, Run(cfg, [a]), b);
    assert Run(cfg, [a, b, c]) == Next(cfg, Run(cfg, [a, b]), c);
    assert Ordered([a]) <==> a.skipAt <= a.updateAt;
    assert Ordered([a, b]) <==> Ordered([a]) && a.updateAt <= b.skipAt && b.skipAt <= b.updateAt;
  }

  /** After a first burst at time 0 and pruning at t, the history shows less than the limit. */
  lemma RoomAfterBurst(cfg: Config, entries: seq<Skip>, t: int)
    requires cfg.Effective() && forall i :: 0 <= i < |entries| ==> entries[i].at == 0
    requires if cfg.retention < cfg.window then t == cfg.retention + 1 else t == 0 && cfg.maxPerWindow > 50
    ensures CountSince(Since(Capped([], entries), t - cfg.retention), t - cfg.window) < cfg.maxPerWindow
  {
    var hist := Capped([], entries);
    assert [] + entries == entries;
    if cfg.retention < cfg.window {
      NoneSince(hist, t - cfg.retention);
    } else {
      SinceCount(hist, t - cfg.retention, t - cfg.window + cfg.retention);
      SinceShrinks(hist, t - cfg.retention);
    }
  }

  lemma {:induction false} SinceShrinks(s: seq<Skip>, cutoff: int)
    ensures |Since(s, cutoff)| <= |s|
  {
    if s != [] {
      SinceShrinks(s[..|s| - 1], cutoff);
    }
  }

  lemma NothingOnRecord(cutoff: int)
    ensures CountSince([], cutoff) == 0
  {
  }

  lemma FirstCycle(cfg: Config, c: Cycle)
    ensures After(cfg, INITIAL, c).skipped == Capped([], Skipped(cfg, INITIAL, c))
  {
    assert Since([], c.updateAt - cfg.retention) == [] && Capped([], []) == [];
    hide Skipped, Quarantines, Refused, Capped, Since;
  }

  /** A burst at time 0, a blind cycle and a burst at t record more than the limit. */
  lemma TwoBursts(cfg: Config, errno: int, t: int, st1: Status, st2: Status)
    requires cfg.Effective() && cfg.enabled && errno in cfg.whitelist
    requires if cfg.retention < cfg.window then t == cfg.retention + 1 else t == 0 && cfg.maxPerWindow > 50
    requires st1 == After(cfg, INITIAL, BurstAt(cfg, errno, 0, 0))
    requires st2 == After(cfg, st1, Cycle(Blind, "", t, t))
    ensures Skipped(cfg, st1, Cycle(Blind, "", t, t)) == []
    ensures |Skipped(cfg, INITIAL, BurstAt(cfg, errno, 0, 0))|
            + |Skipped(cfg, st2, BurstAt(cfg, errno, cfg.maxPerWindow, t))| > cfg.maxPerWindow
  {
    hide After, Skipped, CountSince, Since, Capped;
    var first := Skipped(cfg, INITIAL, BurstAt(cfg, errno, 0, 0));
    BurstSkips(cfg, INITIAL, errno, 0, 0);
    NothingOnRecord(0 - cfg.window);
    FirstCycle(cfg, BurstAt(cfg, errno, 0, 0));
    BlindCycle(cfg, st1, Cycle(Blind, "", t, t));
    RoomAfterBurst(cfg, first, t);
    BurstSkips(cfg, st2, errno, cfg.maxPerWindow, t);
  }

  /** A run that exceeds the limit when the history cannot hold the limit or forgets
      within the window: a burst, a blind cycle, and a second burst. */
  lemma ExceedingRun(cfg: Config, errno: int) returns (cycles: seq<Cycle>)
    requires cfg.Effective() && cfg.enabled && errno in cfg.whitelist && errno > 0
    requires cfg.maxPerWindow > 50 || cfg.retention < cfg.window
    ensures Ordered(cycles) && AllGenuine(cycles)
    ensures |SkipLog(cfg, cycles)| > cfg.maxPerWindow
    ensures forall i :: 0 <= i < |SkipLog(cfg, cycles)| ==> 0 <= SkipLog(cfg, cycles)[i].at <= cfg.window
  {
    hide After, Skipped, Run;
    var t := if cfg.retention < cfg.window then cfg.retention + 1 else 0;
    var a, b, c := BurstAt(cfg, errno, 0, 0), Cycle(Blind, "", t, t), BurstAt(cfg, errno, cfg.maxPerWindow, t);
    var st1 := After(cfg, INITIAL, a);
    var st2 := After(cfg, st1, b);
    cycles := [a, b, c];
    TwoBursts(cfg, errno, t, st1, st2);
    ThreeCycleLog(cfg, a, b, c, st1, st2);
    Unrolled(cfg, a, b, c);
    BurstIsAccepted(errno, 0, cfg.maxPerWindow);
    BurstIsAccepted(errno, cfg.maxPerWindow, cfg.maxPerWindow);
  }

  /** Skipping is on, for at least one error number that detection can report. */
  predicate CanSkip(cfg: Config) { cfg.enabled && exists n :: n in cfg.whitelist && n > 0 }

  lemma LimitBreaks(cfg: Config)
    requires cfg.Effective() && CanSkip(cfg)
    requires cfg.maxPerWindow > 50 || cfg.retention < cfg.window
    ensures !LimitHolds(cfg)
  {
    var errno :| errno in cfg.whitelist && errno > 0;
    var cycles := ExceedingRun(cfg, errno);
    var log := SkipLog(cfg, cycles);
    AllIn(log, 0, cfg.window);
    assert InWindow(cfg, cycles, 0) > cfg.maxPerWindow;
  }

  lemma ThreeCycleLog(cfg: Config, a: Cycle, b: Cycle, c: Cycle, st1: Status, st2: Status)
    requires st1 == After(cfg, INITIAL, a) && st2 == After(cfg, st1, b)
    requires Skipped(cfg, st1, b) == []
    ensures SkipLog(cfg, [a, b, c]) == Skipped(cfg, INITIAL, a) + Skipped(cfg, st2, c)
  {
    Unrolled(cfg, a, b, c);
    ThreeUpdates(Update(Skipped(cfg, INITIAL, a), a.skipAt, a.updateAt), Update([], b.skipAt, b.updateAt),
                 Update(Skipped(cfg, st2, c), c.skipAt, c.updateAt));
  }

  lemma ThreeUpdates(a: Update, b: Update, c: Update)
    requires b.entries == []
    ensures Log([] + [a] + [b] + [c]) == a.entries + c.entries
  {
    LogSnoc([], a);
    LogSnoc([] + [a], b);
    LogSnoc([] + [a] + [b], c);
  }

  lemma {:induction false} NothingToAdmit(cfg: Config, history: seq<Skip>, errors: seq<Observed>, now: int)
    requires forall e :: e in errors ==> e.errno !in cfg.whitelist
    ensures Admit(cfg, history, errors, now) == []
  {
    if errors != [] {
      NothingToAdmit(cfg, history, errors[..|errors| - 1], now);
      assert errors[|errors| - 1] in errors;
    }
  }

  lemma {:induction false} NeverSkips(cfg: Config, cycles: seq<Cycle>)
    requires !CanSkip(cfg) && AllGenuine(cycles)
    ensures SkipLog(cfg, cycles) == []
  {
    if cycles != [] {
      var init, c := cycles[..|cycles| - 1], cycles[|cycles| - 1];
      NeverSkips(cfg, init);
      SkipLogSnoc(cfg, cycles);
      var st := Run(cfg, init).status;
      if Skipping(cfg, st, c) {
        NothingToAdmit(cfg, st.skipped, c.detection.errors, c.skipAt);
      }
    }
  }

  /** The exact condition on the configuration for the limit to hold over all runs: either
      the history can hold the limit and remembers the window, or nothing can be skipped. */
  lemma LimitHoldsIff(cfg: Config)
    requires cfg.Effective()
    ensures LimitHolds(cfg) <==>
      || !cfg.enabled || (forall n :: n in cfg.whitelist ==> n <= 0)
      || (cfg.maxPerWindow <= 50 && cfg.window <= cfg.retention)
  {
    if !CanSkip(cfg) {
      forall cycles, lo | Ordered(cycles) && AllGenuine(cycles)
        ensures InWindow(cfg, cycles, lo) <= cfg.maxPerWindow
      {
        NeverSkips(cfg, cycles);
      }
    } else if cfg.maxPerWindow <= 50 && cfg.window <= cfg.retention {
      forall cycles, lo | Ordered(cycles) && AllGenuine(cycles)
        ensures InWindow(cfg, cycles, lo) <= cfg.maxPerWindow
      {
        SkipsPerWindow(cfg, cycles, lo);
      }
    } else {
      LimitBreaks(cfg);
    }
  }

  // --- quarantine decides on the unbounded log --------------------------------------------------------

  /** In a detecting cycle that is not quarantined, quarantine starts on the log's own
      count, saturated at the cap for the part already recorded. */
  lemma QuarantineCountsLog(cfg: Config, cycles: seq<Cycle>, c: Cycle)
    requires cfg.Effective() && cfg.quarantineWindow <= cfg.retention
    requires Ordered(cycles) && Before(cycles, c.skipAt)
    requires c.detection.Seen? && Run(cfg, cycles).status.quarantinedSince.None?
    ensures var st := Run(cfg, cycles).status;
            var cutoff := c.skipAt - cfg.quarantineWindow;
            After(cfg, st, c).quarantinedSince ==
              if Min(CountSince(SkipLog(cfg, cycles), cutoff), 50) + CountSince(Skipped(cfg, st, c), cutoff)
                 > cfg.threshold
              then Some(c.updateAt) else None
  {
    hide Run, CountSince, Skipped, Log, Min, Ordered, SkipLog, After;
    RunCount(cfg, cycles, c.skipAt, cfg.quarantineWindow);
    QuarantineStarts(cfg, Run(cfg, cycles).status, c);
  }

  lemma QuarantineStarts(cfg: Config, st: Status, c: Cycle)
    requires c.detection.Seen? && st.quarantinedSince.None?
    ensures var cutoff := c.skipAt - cfg.quarantineWindow;
            After(cfg, st, c).quarantinedSince ==
              if CountSince(st.skipped, cutoff) + CountSince(Skipped(cfg, st, c), cutoff) > cfg.threshold
              then Some(c.updateAt) else None
  {
    hide CountSince, Skipped, Released, Refused, Since, Capped;
  }

  /** Below the cap the bounded history decides exactly as the log would: quarantine
      starts iff more than the threshold of all skips ever recorded lie in the window. */
  lemma QuarantineRefinesLog(cfg: Config, cycles: seq<Cycle>, c: Cycle)
    requires cfg.Effective() && cfg.quarantineWindow <= cfg.retention && cfg.threshold < 50
    requires Ordered(cycles) && Before(cycles, c.skipAt)
    requires c.detection.Seen? && Run(cfg, cycles).status.quarantinedSince.None?
    ensures var s' := Next(cfg, Run(cfg, cycles), c);
            s'.status.quarantinedSince ==
              if CountSince(Log(s'.updates), c.skipAt - cfg.quarantineWindow) > cfg.threshold
              then Some(c.updateAt) else None
  {
    hide Run, After, CountSince, Log, Skipped, Ordered;
    var s := Run(cfg, cycles);
    var pending := Skipped(cfg, s.status, c);
    QuarantineCountsLog(cfg, cycles, c);
    LogSnoc(s.updates, Update(pending, c.skipAt, c.updateAt));
    CountSinceAppend(SkipLog(cfg, cycles), pending, c.skipAt - cfg.quarantineWindow);
  }

  // --- how long quarantine lasts ------------------------------------------------------------------------

  /** What a cycle does to a quarantined status. A request is a non-empty annotation that
      differs from the one processed last; whatever becomes of it, it is processed now. */
  lemma QuarantinedCycle(cfg: Config, st: Status, c: Cycle)
    requires st.quarantinedSince.Some?
    ensures Sql(cfg, st, c) == [] && Skipped(cfg, st, c) == []
    ensures After(cfg, st, c).quarantinedSince ==
      if c.detection.Blind?
         || (&& c.annotation != "" && c.annotation != st.lastClear && c.detection.errors == []
             && CountSince(st.skipped, c.skipAt - cfg.quarantineWindow) <= cfg.threshold)
      then None else st.quarantinedSince
    ensures After(cfg, st, c).lastClear == if c.annotation != "" then c.annotation else st.lastClear
  {
    NothingOnRecord(c.skipAt - cfg.quarantineWindow);
    hide Since, Capped, CountSince;
  }

  /** The statuses along a stretch of cycles. */
  function At(cfg: Config, st: Status, cycles: seq<Cycle>): Status
  {
    if cycles == [] then st
    else After(cfg, At(cfg, st, cycles[..|cycles| - 1]), cycles[|cycles| - 1])
  }

  /** The last non-empty annotation of a stretch of cycles, or the one from before it. */
  function LastAnnotation(before: string, cycles: seq<Cycle>): string
  {
    if cycles == [] then before
    else
      var c := cycles[|cycles| - 1];
      if c.annotation != "" then c.annotation else LastAnnotation(before, cycles[..|cycles| - 1])
  }

  predicate StaysQuarantined(cfg: Config, st: Status, cycles: seq<Cycle>)
  {
    && At(cfg, st, cycles).quarantinedSince == st.quarantinedSince
    && (cycles != [] ==> StaysQuarantined(cfg, st, cycles[..|cycles| - 1]))
  }

  lemma {:induction false} StaysIff(cfg: Config, st: Status, cycles: seq<Cycle>)
    ensures StaysQuarantined(cfg, st, cycles) <==>
      forall n: nat :: n <= |cycles| ==> At(cfg, st, cycles[..n]).quarantinedSince == st.quarantinedSince
  {
    hide At;
    assert cycles[..|cycles|] == cycles;
    if cycles != [] {
      var init := cycles[..|cycles| - 1];
      StaysIff(cfg, st, init);
      assert forall n: nat :: n <= |init| ==> init[..n] == cycles[..n];
      if StaysQuarantined(cfg, st, cycles) {
        assert forall n: nat :: n <= |cycles| ==> n <= |init| || cycles[..n] == cycles;
      }
    }
  }

  /** While quarantine lasts, the annotation processed last is the last one seen. */
  lemma {:induction false} RequestsAreRemembered(cfg: Config, st: Status, cycles: seq<Cycle>)
    requires st.quarantinedSince.Some? && StaysQuarantined(cfg, st, cycles)
    ensures At(cfg, st, cycles).lastClear == LastAnnotation(st.lastClear, cycles)
  {
    if cycles != [] {
      hide After, CountSince;
      var init, c := cycles[..|cycles| - 1], cycles[|cycles| - 1];
      RequestsAreRemembered(cfg, st, init);
      QuarantinedCycle(cfg, At(cfg, st, init), c);
    }
  }

  /** The cycle neither goes blind nor carries a changed annotation at a time when no error
      is active and no more than the threshold of the skips it knows lie in the window. */
  predicate KeepsQuarantine(cfg: Config, st: Status, cycles: seq<Cycle>, n: nat)
    requires n < |cycles|
  {
    && cycles[n].detection.Seen?
    && (&& cycles[n].annotation != "" && cycles[n].annotation != LastAnnotation(st.lastClear, cycles[..n])
        && cycles[n].detection.errors == []
        ==> CountSince(At(cfg, st, cycles[..n]).skipped, cycles[n].skipAt - cfg.quarantineWindow) > cfg.threshold)
  }
  lemma StaysStep(cfg: Config, st: Status, cycles: seq<Cycle>)
    requires st.quarantinedSince.Some? && cycles != []
    ensures var init := cycles[..|cycles| - 1];
            StaysQuarantined(cfg, st, cycles) <==>
              StaysQuarantined(cfg, st, init) && KeepsQuarantine(cfg, st, cycles, |init|)
  {
    var init, c := cycles[..|cycles| - 1], cycles[|cycles| - 1];
    hide After, CountSince, LastAnnotation;
    if StaysQuarantined(cfg, st, init) {
      RequestsAreRemembered(cfg, st, init);
      QuarantinedCycle(cfg, At(cfg, st, init), c);
    }
  }

  lemma {:induction false} StaysWhileKept(cfg: Config, st: Status, cycles: seq<Cycle>)
    requires st.quarantinedSince.Some?
    ensures StaysQuarantined(cfg, st, cycles) <==>
      forall n: nat :: n < |cycles| ==> KeepsQuarantine(cfg, st, cycles, n)
  {
    if cycles != [] {
      var init := cycles[..|cycles| - 1];
      StaysStep(cfg, st, cycles);
      StaysWhileKept(cfg, st, init);
      assert forall n: nat :: n < |init| ==> init[n] == cycles[n] && init[..n] == cycles[..n];
      assert forall n: nat :: n < |init| ==> KeepsQuarantine(cfg, st, init, n) == KeepsQuarantine(cfg, st, cycles, n);
      hide StaysQuarantined, KeepsQuarantine;
    }
  }

  /** A quarantine that has lasted over a stretch of cycles ends in the next one exactly if
      that is blind, or no error is active, the annotation has changed since the last one
      seen, and no more than the threshold of the skips on record lie in the window. */
  lemma QuarantineEndsIff(cfg: Config, st: Status, cycles: seq<Cycle>, c: Cycle)
    requires st.quarantinedSince.Some?
    requires forall n: nat :: n <= |cycles| ==> At(cfg, st, cycles[..n]).quarantinedSince == st.quarantinedSince
    ensures At(cfg, st, cycles + [c]).quarantinedSince ==
      if || c.detection.Blind?
         || (&& c.detection.errors == []
             && c.annotation != "" && c.annotation != LastAnnotation(st.lastClear, cycles)
             && CountSince(At(cfg, st, cycles).skipped, c.skipAt - cfg.quarantineWindow) <= cfg.threshold)
      then None else st.quarantinedSince
  {
    hide After, CountSince, LastAnnotation;
    assert (cycles + [c])[..|cycles|] == cycles == cycles[..|cycles|];
    StaysIff(cfg, st, cycles);
    RequestsAreRemembered(cfg, st, cycles);
    QuarantinedCycle(cfg, At(cfg, st, cycles), c);
  }

  /** A quarantine lasts exactly as long as every cycle keeps it. */
  lemma QuarantineLastsIff(cfg: Config, st: Status, cycles: seq<Cycle>)
    requires st.quarantinedSince.Some?
    ensures
      (forall n: nat :: n <= |cycles| ==> At(cfg, st, cycles[..n]).quarantinedSince == st.quarantinedSince) <==>
      (forall n: nat :: n < |cycles| ==> KeepsQuarantine(cfg, st, cycles, n))
  {
    StaysIff(cfg, st, cycles);
    StaysWhileKept(cfg, st, cycles);
    hide At, StaysQuarantined, KeepsQuarantine;
  }

  /** No SQL is issued and nothing is recorded while a quarantine lasts. */
  lemma NoSqlDuring(cfg: Config, st: Status, cycles: seq<Cycle>, n: nat)
    requires n < |cycles| && st.quarantinedSince.Some?
    requires At(cfg, st, cycles[..n]).quarantinedSince == st.quarantinedSince
    ensures Sql(cfg, At(cfg, st, cycles[..n]), cycles[n]) == []
    ensures Skipped(cfg, At(cfg, st, cycles[..n]), cycles[n]) == []
  {
    QuarantinedCycle(cfg, At(cfg, st, cycles[..n]), cycles[n]);
  }

  /** Nothing that pruning drops during a quarantine matters to a window within the retention. */
  lemma {:induction false} QuarantineKeepsCount(cfg: Config, st: Status, cycles: seq<Cycle>, cutoff: int)
    requires cfg.Effective() && st.quarantinedSince.Some? && StaysQuarantined(cfg, st, cycles)
    requires forall i :: 0 <= i < |cycles| ==> cycles[i].updateAt - cfg.retention <= cutoff
    ensures CountSince(At(cfg, st, cycles).skipped, cutoff) == CountSince(st.skipped, cutoff)
  {
    if cycles != [] {
      var init, c := cycles[..|cycles| - 1], cycles[|cycles| - 1];
      QuarantineKeepsCount(cfg, st, init, cutoff);
      QuarantinedPrunes(cfg, At(cfg, st, init), c);
      SinceCount(At(cfg, st, init).skipped, c.updateAt - cfg.retention, cutoff);
      hide After, CountSince, Since;
    }
  }

  lemma QuarantinedPrunes(cfg: Config, st: Status, c: Cycle)
    requires cfg.Effective() && st.quarantinedSince.Some?
    ensures After(cfg, st, c).skipped == Since(st.skipped, c.updateAt - cfg.retention)
  {
    hide Since;
  }

  lemma {:induction false} EarlierUpdates(cycles: seq<Cycle>, n: nat)
    requires Ordered(cycles) && n < |cycles|
    ensures cycles[n].skipAt <= cycles[n].updateAt
    ensures forall i :: 0 <= i < n ==> cycles[i].updateAt <= cycles[n].skipAt
  {
    var init := cycles[..|cycles| - 1];
    if n < |init| {
      EarlierUpdates(init, n);
      assert forall i :: 0 <= i <= n ==> init[i] == cycles[i];
    } else if n > 0 {
      EarlierUpdates(init, n - 1);
      assert forall i :: 0 <= i < n ==> init[i] == cycles[i];
    }
  }

  /** With a quarantine window within the retention only the skips on record when it began
      matter: nothing is added while it lasts, and what is pruned is out of the window. */
  lemma QuarantineEndsOnInputs(cfg: Config, st: Status, cycles: seq<Cycle>, c: Cycle)
    requires cfg.Effective() && cfg.quarantineWindow <= cfg.retention && Ordered(cycles + [c])
    requires st.quarantinedSince.Some?
    requires forall n: nat :: n <= |cycles| ==> At(cfg, st, cycles[..n]).quarantinedSince == st.quarantinedSince
    ensures At(cfg, st, cycles + [c]).quarantinedSince ==
      if || c.detection.Blind?
         || (&& c.detection.errors == []
             && c.annotation != "" && c.annotation != LastAnnotation(st.lastClear, cycles)
             && CountSince(st.skipped, c.skipAt - cfg.quarantineWindow) <= cfg.threshold)
      then None else st.quarantinedSince
  {
    hide At, StaysQuarantined, LastAnnotation, CountSince, Ordered;
    var all := cycles + [c];
    EarlierUpdates(all, |cycles|);
    assert forall i :: 0 <= i < |cycles| ==> cycles[i] == all[i];
    StaysIff(cfg, st, cycles);
    QuarantineKeepsCount(cfg, st, cycles, c.skipAt - cfg.quarantineWindow);
    QuarantineEndsIff(cfg, st, cycles, c);
  }

  function Reports(cfg: Config, st: Status, cycles: seq<Cycle>): nat
  {
    if cycles == [] then 0
    else
      var init := cycles[..|cycles| - 1];
      Reports(cfg, st, init) + if Refused(cfg, At(cfg, st, init), cycles[|cycles| - 1]) then 1 else 0
  }

  /** A refused annotation value, left in place over detecting cycles, never releases the
      quarantine and is reported exactly once, however safe a release becomes meanwhile. */
  lemma {:induction false} RefusedOnce(cfg: Config, st: Status, cycles: seq<Cycle>, value: string)
    requires st.quarantinedSince.Some? && cycles != [] && value != "" && value != st.lastClear
    requires forall c :: c in cycles ==> c.detection.Seen? && c.annotation == value
    requires
      || cycles[0].detection.errors != []
      || CountSince(st.skipped, cycles[0].skipAt - cfg.quarantineWindow) > cfg.threshold
    ensures At(cfg, st, cycles).quarantinedSince == st.quarantinedSince
    ensures At(cfg, st, cycles).lastClear == value
    ensures Reports(cfg, st, cycles) == 1
  {
    var init, c := cycles[..|cycles| - 1], cycles[|cycles| - 1];
    assert c in cycles;
    NothingOnRecord(c.skipAt - cfg.quarantineWindow);
    if init == [] {
      assert Reports(cfg, st, init) == 0;
    } else {
      RefusedOnce(cfg, st, init, value);
    }
    hide CountSince, Since, Capped;
    QuarantinedCycle(cfg, At(cfg, st, init), c);
  }

  /** Any one cycle without detection ends a quarantine, whatever the annotation says and
      whether or not anybody asked for it. */
  lemma BlindCycleEndsQuarantine(cfg: Config, st: Status, cycles: seq<Cycle>)
    requires cfg.Effective() && cycles != [] && cycles[|cycles| - 1].detection.Blind?
    ensures At(cfg, st, cycles).quarantinedSince.None?
  {
    BlindCycle(cfg, At(cfg, st, cycles[..|cycles| - 1]), cycles[|cycles| - 1]);
  }
}

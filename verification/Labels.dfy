/** Which replication errors of which policy are being reported: the label keys kept in
    memory and the gauges exported (internal/controller/replication_errors.go). */
module Labels {
  import opened Text

  const NUL := '\0'

  datatype Label = Label(role: string, channel: string, errno: string)

  predicate Plain(s: string) { NUL !in s }

  predicate Clean(l: Label) { Plain(l.role) && Plain(l.channel) && Plain(l.errno) }

  // --- keys ---------------------------------------------------------------------------------

  function Key(uid: string, l: Label): string
  {
    uid + [NUL] + (l.role + [NUL] + (l.channel + [NUL] + l.errno))
  }

  function Parse(key: string): Option<(string, Label)>
  {
    var parts := SplitN(key, NUL, 4);
    if |parts| != 4 then None else Some((parts[0], Label(parts[1], parts[2], parts[3])))
  }

  lemma FirstPieceIsPlain(s: string, n: nat)
    requires n > 0 && |SplitN(s, NUL, n)| > 1
    ensures Plain(SplitN(s, NUL, n)[0])
  {
    hide IndexOf;
  }

  lemma ParseInvertsKey(uid: string, l: Label)
    requires Plain(uid) && Plain(l.role) && Plain(l.channel)
    ensures Parse(Key(uid, l)) == Some((uid, l))
  {
    hide SplitN;
    var a := l.channel + [NUL] + l.errno;
    var b := l.role + [NUL] + a;
    SplitNFirst(uid, NUL, b, 4);
    SplitNFirst(l.role, NUL, a, 3);
    SplitNFirst(l.channel, NUL, l.errno, 2);
    SplitNWhole(l.errno);
    Four(uid, l.role, l.channel, l.errno);
  }

  lemma SplitNWhole(s: string)
    ensures SplitN(s, NUL, 1) == [s]
  {
  }

  lemma Four(a: string, b: string, c: string, d: string)
    ensures var s := [a] + ([b] + ([c] + [d]));
            |s| == 4 && s[0] == a && s[1] == b && s[2] == c && s[3] == d
  {
  }

  lemma ParsedIsPlain(uid: string, l: Label)
    requires Parse(Key(uid, l)) == Some((uid, l))
    ensures Plain(uid) && Plain(l.role) && Plain(l.channel)
  {
    var a := l.channel + [NUL] + l.errno;
    var b := l.role + [NUL] + a;
    hide SplitN;
    FirstPieceIsPlain(Key(uid, l), 4);
    SplitNFirst(uid, NUL, b, 4);
    FirstPieceIsPlain(b, 3);
    SplitNFirst(l.role, NUL, a, 3);
    FirstPieceIsPlain(a, 2);
  }

  /** The parser returns what the builder was given exactly when the separator occurs in
      none of the first three fields. */
  lemma ParseInvertsKeyIff(uid: string, l: Label)
    ensures Parse(Key(uid, l)) == Some((uid, l)) <==> '\0' !in uid && '\0' !in l.role && '\0' !in l.channel
  {
    hide Key, Parse;
    if Plain(uid) && Plain(l.role) && Plain(l.channel) {
      ParseInvertsKey(uid, l);
    } else if Parse(Key(uid, l)) == Some((uid, l)) {
      ParsedIsPlain(uid, l);
    }
  }

  lemma KeyInjective(uid: string, l: Label, uid': string, l': Label)
    requires Plain(uid) && Clean(l) && Plain(uid') && Clean(l') && Key(uid, l) == Key(uid', l')
    ensures uid == uid' && l == l'
  {
    hide Key, Parse;
    ParseInvertsKeyIff(uid, l);
    ParseInvertsKeyIff(uid', l');
  }

  predicate Mine(uid: string, key: string) { uid + [NUL] <= key }

  lemma MineIff(uid: string, uid': string, l: Label)
    requires Plain(uid) && Plain(uid')
    ensures Mine(uid, Key(uid', l)) <==> uid == uid'
  {
    var key, tail := Key(uid', l), l.role + [NUL] + (l.channel + [NUL] + l.errno);
    IndexOfFirst(uid', NUL, tail);
    assert key[..|uid'|] == uid' && uid' + [NUL] <= key;
    if Mine(uid, key) {
      IndexOfFirst(uid, NUL, key[|uid| + 1..]);
      assert key == uid + [NUL] + key[|uid| + 1..];
      assert key[..|uid|] == uid;
    }
  }

  // --- errnos --------------------------------------------------------------------------------

  function ErrnoText(n: int): (s: string)
    ensures Plain(s)
  {
    if n < 0 then "-" + Dec(-n) else Dec(n)
  }

  lemma ErrnoTextInjective(m: int, n: int)
    requires ErrnoText(m) == ErrnoText(n)
    ensures m == n
  {
    var a, b := if m < 0 then -m else m, if n < 0 then -n else n;
    ValueOfDec(a);
    ValueOfDec(b);
    hide Dec, Value;
    assert ("-" + Dec(a))[1..] == Dec(a) && ("-" + Dec(b))[1..] == Dec(b);
    assert ("-" + Dec(a))[0] == '-' && ("-" + Dec(b))[0] == '-';
    assert IsDigit(Dec(a)[0]) && IsDigit(Dec(b)[0]);
  }

  // --- cycles ----------------------------------------------------------------------------------

  /** What one reconcile cycle of a policy brings. workerErrors is None when the inspector
      cannot detect worker errors or fails to. */
  datatype Cycle = Cycle(
    role: string, channel: string, hasInspector: bool, writableKnown: bool, whitelist: seq<int>,
    workerErrors: Option<seq<int>>)
  {
    predicate WellNamed() { Plain(role) && Plain(channel) }
    predicate Reaches() { hasInspector && channel != "" && writableKnown }
    predicate Detects() { Reaches() && workerErrors.Some? }
    function LabelOf(errno: int): Label { Label(role, channel, ErrnoText(errno)) }
    function Preseeds(): seq<int> { if whitelist == [] then [1062, 1032] else whitelist }
  }

  /** The keys of the errors a detecting cycle observes. */
  function Observed(uid: string, c: Cycle): set<string>
    requires c.Detects()
  {
    set e | e in c.workerErrors.value :: Key(uid, c.LabelOf(e))
  }

  /** What a cycle does to the active keys: a detecting one replaces the policy's own. */
  ghost predicate Replaced(uid: string, c: Cycle, before: set<string>, after: set<string>)
  {
    forall k :: k in after <==> if c.Detects() && Mine(uid, k) then k in Observed(uid, c) else k in before
  }

  type Gauges = map<Label, bool>

  predicate On(g: Gauges, l: Label) { l in g && g[l] }

  /** The gauges that are on are those of the active keys. */
  ghost predicate Matches(uid: string, active: set<string>, g: Gauges)
  {
    forall l: Label :: Clean(l) ==> (On(g, l) <==> Key(uid, l) in active)
  }

  ghost predicate AllOff(g: Gauges) { forall l :: l in g ==> !g[l] }

  /** A gauge is on exactly when it carries the cycle's role and channel and an observed
      errno. */
  ghost predicate GaugesShow(g: Gauges, c: Cycle)
    requires c.Detects()
  {
    forall role, channel, errno: int :: Plain(role) && Plain(channel) ==>
      (On(g, Label(role, channel, ErrnoText(errno))) <==>
       role == c.role && channel == c.channel && errno in c.workerErrors.value)
  }

  /** From the first cycle that reaches detection on, every whitelisted errno has a gauge or
      an active key. */
  ghost predicate Seeded(uid: string, c: Cycle, active: set<string>, g: Gauges)
  {
    c.Reaches() ==> forall e :: e in c.Preseeds() ==> c.LabelOf(e) in g || Key(uid, c.LabelOf(e)) in active
  }

  predicate WellFormed(key: string)
  {
    var p := Parse(key);
    p.Some? && Plain(p.value.0) && Clean(p.value.1) && key == Key(p.value.0, p.value.1)
  }

  lemma KeyWellFormed(uid: string, l: Label)
    requires Plain(uid) && Clean(l)
    ensures WellFormed(Key(uid, l)) && Mine(uid, Key(uid, l))
  {
    ParseInvertsKeyIff(uid, l);
    MineIff(uid, uid, l);
  }

  lemma MineParses(uid: string, key: string) returns (l: Label)
    requires Plain(uid) && WellFormed(key) && Mine(uid, key)
    ensures Clean(l) && key == Key(uid, l) && Parse(key) == Some((uid, l))
  {
    var p := Parse(key).value;
    MineIff(uid, p.0, p.1);
    l := p.1;
  }

  class Tracker {
    var active: set<string>
    var gauges: Gauges

    ghost predicate Valid()
      reads this
    {
      forall k :: k in active ==> WellFormed(k)
    }

    constructor ()
      ensures Valid() && active == {} && gauges == map[]
    {
      active, gauges := {}, map[];
    }

    /** Gauges of inactive errnos appear as 0 before any error fires. */
    method Preseed(uid: string, c: Cycle)
      requires Valid() && Plain(uid) && c.WellNamed()
      modifies this`gauges
      ensures forall e :: e in c.Preseeds() && Key(uid, c.LabelOf(e)) !in active ==>
                c.LabelOf(e) in gauges && !gauges[c.LabelOf(e)]
      ensures forall e: int ::
                && (e in c.whitelist || (c.whitelist == [] && (e == 1062 || e == 1032)))
                && Key(uid, c.LabelOf(e)) !in active ==>
                  c.LabelOf(e) in gauges && !gauges[c.LabelOf(e)]
      ensures old(Matches(uid, active, gauges)) ==> Matches(uid, active, gauges)
    {
      hide Key, Parse, ErrnoText;
      var codes := c.Preseeds();
      for i := 0 to |codes|
        invariant forall j :: 0 <= j < i && Key(uid, c.LabelOf(codes[j])) !in active ==>
                    c.LabelOf(codes[j]) in gauges && !gauges[c.LabelOf(codes[j])]
        invariant old(Matches(uid, active, gauges)) ==> Matches(uid, active, gauges)
      {
        var l := c.LabelOf(codes[i]);
        if Key(uid, l) !in active {
          gauges := gauges[l := false];
        }
      }
    }

    /** Marks every observed error; `isNew` tells whether one was not active before. */
    method Mark(uid: string, c: Cycle) returns (isNew: bool)
      requires Valid() && Plain(uid) && c.WellNamed() && c.Detects()
      modifies this
      ensures Valid() && active == old(active) + Observed(uid, c)
      ensures isNew <==> !(Observed(uid, c) <= old(active))
      ensures old(gauges).Keys <= gauges.Keys
      ensures old(Matches(uid, active, gauges)) ==> Matches(uid, active, gauges)
    {
      hide Key, Parse, ErrnoText, WellFormed, Mine;
      isNew := false;
      var errnos := c.workerErrors.value;
      ghost var current: set<string> := {};
      for i := 0 to |errnos|
        invariant Valid() && active == old(active) + current
        invariant current == set e | e in errnos[..i] :: Key(uid, c.LabelOf(e))
        invariant isNew <==> !(current <= old(active))
        invariant old(gauges).Keys <= gauges.Keys
        invariant old(Matches(uid, active, gauges)) ==> Matches(uid, active, gauges)
      {
        assert errnos[..i + 1] == errnos[..i] + [errnos[i]];
        ghost var before := active;
        var l := c.LabelOf(errnos[i]);
        var key := Key(uid, l);
        KeyWellFormed(uid, l);
        gauges := gauges[l := true];
        current := current + {key};
        if key !in active {
          isNew := true;
          active := active + {key};
        }
        forall m: Label | Clean(m) && Key(uid, m) == key ensures m == l {
          KeyInjective(uid, m, uid, l);
        }
      }
      assert errnos[..|errnos|] == errnos;
    }

    /** Clears what this policy no longer observes, and touches no other policy's keys. */
    method Sweep(uid: string, current: set<string>)
      requires Valid() && Plain(uid)
      modifies this
      ensures Valid() && active == set k | k in old(active) && (Mine(uid, k) ==> k in current)
      ensures old(gauges).Keys <= gauges.Keys
      ensures old(Matches(uid, active, gauges)) ==> Matches(uid, active, gauges)
    {
      hide Key, Parse, WellFormed, Mine;
      var todo := active;
      while todo != {}
        invariant todo <= active && Valid() && old(gauges).Keys <= gauges.Keys
        invariant active == set k | k in old(active) && (k in todo || !Mine(uid, k) || k in current)
        invariant old(Matches(uid, active, gauges)) ==> Matches(uid, active, gauges)
        decreases |todo|
      {
        var key :| key in todo;
        todo := todo - {key};
        if !Mine(uid, key) {
          continue;
        }
        if key in current {
          continue;
        }
        var p := Parse(key);
        ghost var l := MineParses(uid, key);
        if p.Some? {
          gauges := gauges[p.value.1 := false];
        }
        active := active - {key};
        forall m: Label | Clean(m) && Key(uid, m) == key ensures m == l {
          KeyInjective(uid, m, uid, l);
        }
      }
    }

    /** One cycle of a policy. If it detects, the policy's keys become exactly those of the
        observed errors; if it does not, no key changes. A warning event is emitted
        exactly when an observed key was not active. */
    method Observe(uid: string, c: Cycle) returns (event: bool)
      requires Valid() && Plain(uid) && c.WellNamed()
      modifies this
      ensures Valid()
      ensures event <==> c.Detects() && !(Observed(uid, c) <= old(active))
      ensures event ==>
        && c.hasInspector && c.channel != "" && c.writableKnown && c.workerErrors.Some?
        && exists e :: e in c.workerErrors.value && Key(uid, Label(c.role, c.channel, ErrnoText(e))) !in old(active)
      ensures c.hasInspector && c.channel != "" && c.writableKnown && c.workerErrors.Some? ==>
        forall e :: e in c.workerErrors.value ==>
          var key := Key(uid, Label(c.role, c.channel, ErrnoText(e)));
          key in active && (key in old(active) || event)
      ensures !c.hasInspector || c.channel == "" || !c.writableKnown ==>
        active == old(active) && gauges == old(gauges)
      ensures Replaced(uid, c, old(active), active)
      ensures Seeded(uid, c, old(active), gauges)
      ensures old(Matches(uid, active, gauges)) ==> Matches(uid, active, gauges)
    {
      hide Key, Parse, WellFormed, Mine, ErrnoText;
      event := false;
      if !c.hasInspector || c.channel == "" || !c.writableKnown {
        return;
      }
      Preseed(uid, c);
      if c.workerErrors == None {
        return;
      }
      event := Mark(uid, c);
      Sweep(uid, Observed(uid, c));
      ObservedIsMine(uid, c);
    }
  }

  lemma ObservedIsMine(uid: string, c: Cycle)
    requires Plain(uid) && c.WellNamed() && c.Detects()
    ensures forall k :: k in Observed(uid, c) ==> Mine(uid, k)
  {
    hide Key, WellFormed, Mine, ErrnoText;
    forall k | k in Observed(uid, c) ensures Mine(uid, k) {
      var e :| e in c.workerErrors.value && k == Key(uid, c.LabelOf(e));
      KeyWellFormed(uid, c.LabelOf(e));
    }
  }

  /** After a detecting cycle, a gauge is on exactly when it carries the cycle's role and
      channel and an observed errno. */
  lemma GaugeOnIffObserved(uid: string, c: Cycle, active: set<string>, g: Gauges, l: Label, errno: int)
    requires Plain(uid) && c.WellNamed() && c.Detects() && Matches(uid, active, g)
    requires forall k :: Mine(uid, k) ==> (k in active <==> k in Observed(uid, c))
    requires Plain(l.role) && Plain(l.channel) && l.errno == ErrnoText(errno)
    ensures On(g, l) <==> l.role == c.role && l.channel == c.channel && errno in c.workerErrors.value
  {
    hide Key, WellFormed, Mine, ErrnoText;
    KeyWellFormed(uid, l);
    if Key(uid, l) in Observed(uid, c) {
      var e :| e in c.workerErrors.value && Key(uid, l) == Key(uid, c.LabelOf(e));
      KeyInjective(uid, l, uid, c.LabelOf(e));
      ErrnoTextInjective(errno, e);
    }
    if l.role == c.role && l.channel == c.channel && errno in c.workerErrors.value {
      assert l == c.LabelOf(errno);
    }
  }

  // --- runs --------------------------------------------------------------------------------------

  /** What the last detecting cycle observed; nothing before the first. */
  function LastSeen(uid: string, cs: seq<Cycle>): set<string>
  {
    if cs == [] then {}
    else if cs[|cs| - 1].Detects() then Observed(uid, cs[|cs| - 1])
    else LastSeen(uid, cs[..|cs| - 1])
  }

  lemma LastSeenSnoc(uid: string, cs: seq<Cycle>, c: Cycle)
    ensures LastSeen(uid, cs + [c]) == if c.Detects() then Observed(uid, c) else LastSeen(uid, cs)
  {
    assert (cs + [c])[..|cs|] == cs;
  }

  lemma LastSeenIsMine(uid: string, cs: seq<Cycle>)
    requires Plain(uid) && AllNamed(cs)
    ensures forall k :: k in LastSeen(uid, cs) ==> Mine(uid, k)
  {
    hide Mine, Observed;
    if cs != [] {
      var last := cs[|cs| - 1];
      if last.Detects() {
        ObservedIsMine(uid, last);
      } else {
        LastSeenIsMine(uid, cs[..|cs| - 1]);
      }
    }
  }

  /** Cycle i observes an error that the last detecting cycle before it did not. */
  predicate Fires(uid: string, cs: seq<Cycle>, i: nat)
    requires i < |cs|
  {
    cs[i].Detects() && !(Observed(uid, cs[i]) <= LastSeen(uid, cs[..i]))
  }

  ghost predicate Strangers(uid: string, active: set<string>) { forall k :: k in active ==> !Mine(uid, k) }

  predicate AllNamed(cs: seq<Cycle>) { forall i :: 0 <= i < |cs| ==> cs[i].WellNamed() }

  method WatchKeys(t: Tracker, uid: string, cs: seq<Cycle>) returns (events: seq<bool>)
    requires t.Valid() && Plain(uid) && AllNamed(cs) && Strangers(uid, t.active)
    modifies t
    ensures t.Valid() && |events| == |cs|
    ensures forall i :: 0 <= i < |cs| ==> events[i] == Fires(uid, cs, i)
    ensures t.active == old(t.active) + LastSeen(uid, cs)
    ensures old(Matches(uid, t.active, t.gauges)) ==> Matches(uid, t.active, t.gauges)
  {
    hide Key, Parse, WellFormed, Mine, ErrnoText, Observed, LastSeen;
    events := [];
    assert LastSeen(uid, []) == {} by { LastSeenEmpty(uid); }
    for n := 0 to |cs|
      invariant t.Valid() && |events| == n
      invariant forall i :: 0 <= i < n ==> events[i] == Fires(uid, cs, i)
      invariant t.active == old(t.active) + LastSeen(uid, cs[..n])
      invariant old(Matches(uid, t.active, t.gauges)) ==> Matches(uid, t.active, t.gauges)
    {
      assert cs[..n + 1] == cs[..n] + [cs[n]];
      LastSeenSnoc(uid, cs[..n], cs[n]);
      LastSeenIsMine(uid, cs[..n]);
      if cs[n].Detects() {
        ObservedIsMine(uid, cs[n]);
      }
      var event := t.Observe(uid, cs[n]);
      events := events + [event];
    }
    assert cs[..|cs|] == cs;
  }

  /** Every run of cycles of one policy: each cycle emits an event exactly when it observes
      an error that the previous detecting cycle did not, however many blind cycles lie
      between; the keys kept are those of the last detecting cycle; and if no gauge was on
      at the start, a run that ends in a detecting cycle ends with exactly the gauges of
      that cycle's errors on. */
  method Watch(t: Tracker, uid: string, cs: seq<Cycle>) returns (events: seq<bool>)
    requires t.Valid() && Plain(uid) && AllNamed(cs) && Strangers(uid, t.active)
    modifies t
    ensures t.Valid() && |events| == |cs|
    ensures forall i :: 0 <= i < |cs| ==> events[i] == Fires(uid, cs, i)
    ensures t.active == old(t.active) + LastSeen(uid, cs)
    ensures old(AllOff(t.gauges)) && cs != [] && cs[|cs| - 1].Detects() ==> GaugesShow(t.gauges, cs[|cs| - 1])
  {
    if AllOff(t.gauges) {
      OffMatches(uid, t.active, t.gauges);
    }
    events := WatchKeys(t, uid, cs);
    if old(AllOff(t.gauges)) && cs != [] && cs[|cs| - 1].Detects() {
      hide Matches, GaugesShow, AllOff, Observed, LastSeen;
      LastSeenLast(uid, cs);
      AllGaugesShow(uid, cs[|cs| - 1], old(t.active), t.active, t.gauges);
    }
  }

  lemma LastSeenLast(uid: string, cs: seq<Cycle>)
    requires cs != [] && cs[|cs| - 1].Detects()
    ensures LastSeen(uid, cs) == Observed(uid, cs[|cs| - 1])
  {
  }

  lemma OffMatches(uid: string, active: set<string>, g: Gauges)
    requires Plain(uid) && AllOff(g) && Strangers(uid, active)
    ensures Matches(uid, active, g)
  {
    hide Key, Mine;
    forall l | Clean(l) ensures Key(uid, l) !in active {
      MineIff(uid, uid, l);
    }
  }

  lemma AllGaugesShow(uid: string, c: Cycle, others: set<string>, active: set<string>, g: Gauges)
    requires Plain(uid) && c.WellNamed() && c.Detects() && Matches(uid, active, g)
    requires active == others + Observed(uid, c) && Strangers(uid, others)
    ensures GaugesShow(g, c)
  {
    hide Key, Mine, ErrnoText, Observed, Matches;
    forall role, channel, errno: int | Plain(role) && Plain(channel)
      ensures On(g, Label(role, channel, ErrnoText(errno))) <==>
                role == c.role && channel == c.channel && errno in c.workerErrors.value
    {
      ObservedIsMine(uid, c);
      GaugeOnIffObserved(uid, c, active, g, Label(role, channel, ErrnoText(errno)), errno);
    }
  }

  lemma LastSeenEmpty(uid: string)
    ensures LastSeen(uid, []) == {}
  {
  }
}

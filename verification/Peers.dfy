/** Two controllers, one beside each cluster, each running the engine with the sides
    swapped. The discipline of Protocol keeps two writers apart as long as attempts take
    turns; nothing in the engine makes them.

    Every client counts here, so where the ProxySQL instances send writes is left out. */
module Peers {
  import opened Clusters
  import opened Faults
  import opened Protocol

  datatype Site = Dc | Dr

  function Other(s: Site): Site { if s == Dc then Dr else Dc }

  /** Which cluster accepts writes. */
  datatype Pair = Pair(dc: bool, dr: bool)

  function Writable(w: Pair, s: Site): bool { if s == Dc then w.dc else w.dr }

  /** A call by the controller whose local side is at `site`. */
  datatype Event = Event(site: Site, call: Call)

  /** The ProxySQL instances of each controller. */
  datatype Setup = Setup(dc: set<Proxy>, dr: set<Proxy>)
  {
    function Of(s: Site): set<Proxy> { if s == Dc then dc else dr }
  }

  function View(w: Pair, site: Site, proxies: set<Proxy>): Sides
  {
    Sides(Writable(w, site), Writable(w, Other(site)), proxies, Routes({}, {}), Routes({}, {}))
  }

  /** The pair as the sides of one controller. */
  function PairOf(s: Sides, site: Site): Pair
  {
    if site == Dc then Pair(s.localWritable, s.remoteWritable) else Pair(s.remoteWritable, s.localWritable)
  }

  function Joint(start: Pair, events: seq<Event>): Pair
  {
    if events == [] then start
    else
      var w, e := Joint(start, events[..|events| - 1]), events[|events| - 1];
      PairOf(Step(View(w, e.site, {}), e.call), e.site)
  }

  // --- turns ------------------------------------------------------------------------------

  /** The controller whose preflight passed last, what it saw then, and its calls since. */
  datatype Turn = Turn(site: Site, view: Sides, log: seq<Call>)

  function CurrentTurn(setup: Setup, start: Pair, events: seq<Event>): Turn
    requires events != [] && events[0].call.Cleared?
  {
    var init, e := events[..|events| - 1], events[|events| - 1];
    if e.call.Cleared? then Turn(e.site, View(Joint(start, init), e.site, setup.Of(e.site)), [Cleared])
    else
      var t := CurrentTurn(setup, start, init);
      t.(log := t.log + [e.call])
  }

  /** A preflight passes only on a read-only remote; between preflights only the controller
      whose turn it is calls, and it obeys the discipline. */
  predicate TakeTurns(setup: Setup, start: Pair, events: seq<Event>)
  {
    events != [] ==>
      var init, e := events[..|events| - 1], events[|events| - 1];
      && TakeTurns(setup, start, init)
      && if e.call.Cleared? then !Writable(Joint(start, init), Other(e.site))
         else
           && init != [] && init[0].call.Cleared?
           && var t := CurrentTurn(setup, start, init);
              e.site == t.site && Allowed(t.view, t.log, e.call)
  }

  lemma {:induction false} StartsCleared(setup: Setup, start: Pair, events: seq<Event>)
    requires TakeTurns(setup, start, events) && events != []
    ensures events[0].call.Cleared?
  {
    var init := events[..|events| - 1];
    if init != [] {
      StartsCleared(setup, start, init);
    }
  }

  lemma StepOnPair(s: Sides, site: Site, c: Call)
    ensures PairOf(Step(View(PairOf(s, site), site, {}), c), site) == PairOf(Step(s, c), site)
  {
    hide Publish;
    assert forall v, staged, loaded :: Publish(v, staged, loaded).localWritable == v.localWritable by {
      PublishKeepsWritable();
    }
    PublishKeepsWritable();
  }

  lemma PublishKeepsWritable()
    ensures forall v, staged, loaded ::
      Publish(v, staged, loaded).localWritable == v.localWritable
      && Publish(v, staged, loaded).remoteWritable == v.remoteWritable
  {
  }

  lemma NewTurn(view: Sides)
    requires !view.remoteWritable
    ensures Disciplined(view, [Cleared]) && Replay(view, [Cleared]) == view
  {
    assert Disciplined(view, []) && Replay(view, []) == view;
    hide Disciplined, Replay;
    Snoc(view, [], Cleared);
    assert [] + [Cleared] == [Cleared];
  }

  /** A turn is a disciplined log on the sides its controller saw, and it is the whole
      story of the pair since. */
  lemma {:induction false} TurnIsDisciplined(setup: Setup, start: Pair, events: seq<Event>)
    requires TakeTurns(setup, start, events) && events != [] && events[0].call.Cleared?
    ensures var t := CurrentTurn(setup, start, events);
            && Disciplined(t.view, t.log) && !t.view.remoteWritable && t.view.Formed()
            && Joint(start, events) == PairOf(Replay(t.view, t.log), t.site)
  {
    var init, e := events[..|events| - 1], events[|events| - 1];
    var w := Joint(start, init);
    assert Joint(start, events) == PairOf(Step(View(w, e.site, {}), e.call), e.site);
    if e.call.Cleared? {
      hide Disciplined, Replay, Joint;
      NewTurn(View(w, e.site, setup.Of(e.site)));
    } else {
      TurnIsDisciplined(setup, start, init);
      var t := CurrentTurn(setup, start, init);
      assert Allowed(t.view, t.log, e.call) && e.site == t.site;
      assert CurrentTurn(setup, start, events) == t.(log := t.log + [e.call]);
      hide Disciplined, Replay, Joint, Step, Allowed, CurrentTurn, TakeTurns, View, PairOf;
      Snoc(t.view, t.log, e.call);
      StepOnPair(Replay(t.view, t.log), t.site, e.call);
    }
  }

  /** As long as the controllers take turns, any number of attempts by either of them makes
      both clusters writable only through one of the two faults in the current attempt, or
      behind its blackhole. */
  lemma TurnsKeepOneWriter(setup: Setup, start: Pair, events: seq<Event>)
    requires TakeTurns(setup, start, events) && events != [] && events[0].call.Cleared?
    ensures var log := CurrentTurn(setup, start, events).log;
            Joint(start, events) == Pair(true, true) ==> Excused(log) || BlackholeHolds(log)
  {
    TurnIsDisciplined(setup, start, events);
    var t := CurrentTurn(setup, start, events);
    assert t.log[..|t.log|] == t.log;
    BothWritableOnlyBehindBlackhole(t.view, t.log, |t.log|);
  }

  // --- and without turns ---------------------------------------------------------------------

  const FENCE := FenceLocal(Outcome(true, true))
  const ENABLE := EnableRemote(Outcome(true, true), {})

  /** The peer's preflight passes while the first controller has its own side fenced; each
      then enables the side the other one fenced. */
  function Overlap(): seq<Event>
  {
    [Event(Dc, Cleared), Event(Dc, FENCE), Event(Dr, Cleared), Event(Dr, FENCE), Event(Dc, ENABLE), Event(Dr, ENABLE)]
  }

  lemma JointSnoc(start: Pair, events: seq<Event>, e: Event)
    ensures Joint(start, events + [e]) == PairOf(Step(View(Joint(start, events), e.site, {}), e.call), e.site)
  {
    assert (events + [e])[..|events|] == events;
  }

  lemma OwnLogIsDisciplined(view: Sides)
    requires !view.remoteWritable
    ensures Disciplined(view, [Cleared, FENCE, ENABLE]) && !Excused([Cleared, FENCE, ENABLE])
  {
    assert Disciplined(view, []) && Replay(view, []) == view && !Excused([]) && !SqlFenceHolds([]);
    hide Disciplined, SqlFenceHolds, BlackholeHolds, Undemoted, Excused, Replay;
    assert [] + [Cleared] == [Cleared] && [Cleared] + [FENCE] + [ENABLE] == [Cleared, FENCE, ENABLE];
    Snoc(view, [], Cleared);
    Snoc(view, [Cleared], FENCE);
    Snoc(view, [Cleared] + [FENCE], ENABLE);
  }

  lemma JointOfOverlap(start: Pair)
    requires start == Pair(true, false)
    ensures Joint(start, Overlap()) == Pair(true, true) && Joint(start, Overlap()[..2]) == Pair(false, false)
  {
    var a, b, c := Event(Dc, Cleared), Event(Dc, FENCE), Event(Dr, Cleared);
    var d, e, f := Event(Dr, FENCE), Event(Dc, ENABLE), Event(Dr, ENABLE);
    assert Joint(start, []) == start && [] + [a] == [a];
    hide Joint;
    JointSnoc(start, [], a);
    JointSnoc(start, [a], b);
    assert Joint(start, [a] + [b]) == Pair(false, false);
    JointSnoc(start, [a] + [b], c);
    JointSnoc(start, [a] + [b] + [c], d);
    assert Joint(start, [a] + [b] + [c] + [d]) == Pair(false, false);
    JointSnoc(start, [a] + [b] + [c] + [d], e);
    JointSnoc(start, [a] + [b] + [c] + [d] + [e], f);
    assert Overlap() == [a] + [b] + [c] + [d] + [e] + [f];
    assert Overlap()[..2] == [a] + [b];
  }

  /** Without turns the discipline of each controller is not enough: no call fails, each
      preflight sees a read-only remote, and both clusters end up writable. */
  lemma OverlapMakesTwoWriters(setup: Setup)
    ensures var start := Pair(true, false);
            && Joint(start, Overlap()) == Pair(true, true) && !TakeTurns(setup, start, Overlap())
            && var dc, dr := View(start, Dc, setup.dc), View(Joint(start, Overlap()[..2]), Dr, setup.dr);
               && !dc.remoteWritable && Disciplined(dc, [Cleared, FENCE, ENABLE])
               && !dr.remoteWritable && Disciplined(dr, [Cleared, FENCE, ENABLE])
               && !Excused([Cleared, FENCE, ENABLE])
  {
    var start := Pair(true, false);
    JointOfOverlap(start);
    TurnsFail(setup, start);
    hide Joint, TakeTurns, Disciplined, Excused, Overlap;
    OwnLogIsDisciplined(View(start, Dc, setup.dc));
    OwnLogIsDisciplined(View(Joint(start, Overlap()[..2]), Dr, setup.dr));
  }

  lemma TurnsFail(setup: Setup, start: Pair)
    ensures !TakeTurns(setup, start, Overlap())
  {
    var events := Overlap();
    assert events[..5][..4] == events[..4] && events[..4][..3] == events[..3];
    assert CurrentTurn(setup, start, events[..3]).site == Dr;
    assert CurrentTurn(setup, start, events[..4]).site == Dr;
    assert events[..5][4] == Event(Dc, ENABLE);
    assert !TakeTurns(setup, start, events[..5]);
  }
}

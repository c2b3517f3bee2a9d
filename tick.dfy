/** One tick of the simulation as a function on values: baseline for every
    agent, all decisions against the pre-tick basket, then the actions in
    agent order against the shared basket and field (the body of the tick
    loop in simulate, gatherers_village.py). */
module Ticks {
  import opened Agents
  import opened Policy

  /** The random source: coin(k, p) is the outcome of comparing the k-th
      uniform draw of the run against the probability p. */
  type Coin = (nat, real) -> bool

  /** Everything a tick reads and writes: the agents' meters in agent order,
      the shared basket and field, the day's gathered and eaten counters,
      and how many random draws the run has consumed. */
  datatype Phase = Phase(
    meters: seq<Meters>,
    basket: int,
    field: int,
    gathered: int,
    eaten: int,
    drawn: nat)

  predicate AllInRange(ms: seq<Meters>) {
    forall k :: 0 <= k < |ms| ==> InRange(ms[k])
  }

  /** The state invariant: meters clamped, pools and counters non-negative. */
  predicate WellFormed(s: Phase) {
    AllInRange(s.meters) && s.basket >= 0 && s.field >= 0 && s.gathered >= 0 && s.eaten >= 0
  }

  /** Step 1 of a tick: baseline for every agent. */
  function BaselineAll(ms: seq<Meters>): (r: seq<Meters>)
    ensures |r| == |ms|
    ensures forall k :: 0 <= k < |ms| ==> r[k] == AfterBaseline(ms[k])
    ensures AllInRange(ms) ==> AllInRange(r)
  {
    seq(|ms|, k requires 0 <= k < |ms| => AfterBaseline(ms[k]))
  }

  /** Agent k carries out action a. An eat takes effect only while the
      basket holds food; a forage always pays its cost and draws once,
      against p, only while the field is not empty. */
  function Act(s: Phase, k: nat, a: Action, p: real, coin: Coin): (r: Phase)
    requires k < |s.meters|
    ensures |r.meters| == |s.meters|
  {
    match a
    case Eat =>
      if s.basket > 0 then
        s.(basket := s.basket - 1, meters := s.meters[k := AfterEat(s.meters[k])], eaten := s.eaten + 1)
      else s
    case Rest =>
      s.(meters := s.meters[k := AfterRest(s.meters[k])])
    case Forage =>
      var t := s.(meters := s.meters[k := AfterForage(s.meters[k])]);
      if s.field > 0 then
        if coin(s.drawn, p) then
          t.(basket := t.basket + 1, field := t.field - 1, gathered := t.gathered + 1, drawn := t.drawn + 1)
        else t.(drawn := t.drawn + 1)
      else t
  }

  /** What one action does: only agent k's meters change, and by that
      action's update; an eat on an empty basket is a no-op; food moves one
      unit at a time between field, basket and stomach; a forager pays its
      cost even on an empty field, consumes a draw exactly when the field
      holds food, and gathers one unit exactly when that draw succeeds. */
  lemma ActFacts(s: Phase, k: nat, a: Action, p: real, coin: Coin)
    requires k < |s.meters|
    ensures var r := Act(s, k, a, p, coin);
      (forall j :: 0 <= j < |s.meters| && j != k ==> r.meters[j] == s.meters[j]) &&
      (InRange(s.meters[k]) ==> InRange(r.meters[k])) &&
      r.basket + r.field + r.eaten == s.basket + s.field + s.eaten &&
      r.field + r.gathered == s.field + s.gathered &&
      s.gathered <= r.gathered <= s.gathered + 1 && s.eaten <= r.eaten <= s.eaten + 1 &&
      (s.basket >= 0 ==> r.basket >= 0) &&
      (s.field >= 0 ==> r.field >= 0) &&
      (a != Forage || s.field <= 0 ==> r.drawn == s.drawn && r.field == s.field) &&
      (a == Forage && s.field > 0 ==> r.drawn == s.drawn + 1) &&
      (a == Eat && s.basket <= 0 ==> r == s) &&
      (a == Eat && s.basket > 0 ==>
        r.meters[k] == AfterEat(s.meters[k]) && r.basket == s.basket - 1 && r.eaten == s.eaten + 1) &&
      (a != Eat ==> r.eaten == s.eaten) &&
      (a == Rest ==> r.meters[k] == AfterRest(s.meters[k]) && r.basket == s.basket) &&
      (a == Forage ==> r.meters[k] == AfterForage(s.meters[k])) &&
      (a == Forage && s.field > 0 && coin(s.drawn, p) ==>
        r.gathered == s.gathered + 1 && r.basket == s.basket + 1 && r.field == s.field - 1) &&
      (a == Forage && (s.field <= 0 || !coin(s.drawn, p)) ==>
        r.gathered == s.gathered && r.basket == s.basket && r.field == s.field)
  {
  }

  /** The first i agents, in agent order, carry out their actions. */
  function ActUpTo(s: Phase, acts: seq<Action>, p: real, coin: Coin, i: nat): (r: Phase)
    requires |acts| == |s.meters| && i <= |acts|
    ensures |r.meters| == |s.meters|
  {
    if i == 0 then s
    else Act(ActUpTo(s, acts, p, coin, i - 1), i - 1, acts[i - 1], p, coin)
  }

  /** What the first i actions of a tick keep and change: agents not yet
      reached are untouched, meters stay clamped, food is only moved between
      field, basket and stomachs, nobody eats food that was neither in the
      basket nor gathered, and each forager draws at most once, only while
      the field holds food. */
  lemma {:induction false} ActUpToFacts(s: Phase, acts: seq<Action>, p: real, coin: Coin, i: nat)
    requires |acts| == |s.meters| && i <= |acts|
    ensures var r := ActUpTo(s, acts, p, coin, i);
      (forall j :: i <= j < |s.meters| ==> r.meters[j] == s.meters[j]) &&
      (AllInRange(s.meters) ==> AllInRange(r.meters)) &&
      r.basket + r.field + r.eaten == s.basket + s.field + s.eaten &&
      r.field + r.gathered == s.field + s.gathered &&
      s.gathered <= r.gathered && s.eaten <= r.eaten &&
      (s.basket >= 0 ==> r.basket >= 0) &&
      (s.field >= 0 ==> r.field >= 0) &&
      (s.basket >= 0 ==> r.eaten - s.eaten <= s.basket + (r.gathered - s.gathered)) &&
      s.drawn <= r.drawn <= s.drawn + CountForagers(acts[..i]) &&
      (s.field <= 0 ==> r.drawn == s.drawn && r.gathered == s.gathered && r.field == s.field)
  {
    if i > 0 {
      ActUpToFacts(s, acts, p, coin, i - 1);
      ActFacts(ActUpTo(s, acts, p, coin, i - 1), i - 1, acts[i - 1], p, coin);
      assert acts[..i][..i - 1] == acts[..i - 1];
    }
  }

  /** One full tick. */
  function NextTick(s: Phase, coin: Coin): (r: Phase)
    ensures |r.meters| == |s.meters|
    ensures WellFormed(s) ==> WellFormed(r)
    ensures r.basket + r.field + r.eaten == s.basket + s.field + s.eaten
    ensures r.basket == s.basket + (r.gathered - s.gathered) - (r.eaten - s.eaten)
    ensures r.field == s.field - (r.gathered - s.gathered)
    ensures s.gathered <= r.gathered && s.eaten <= r.eaten
    ensures s.field >= 0 ==> r.gathered - s.gathered <= s.field
    ensures s.drawn <= r.drawn <= s.drawn + |s.meters|
    ensures s.field <= 0 ==> r.drawn == s.drawn && r.gathered == s.gathered
    ensures WellFormed(s) ==> r.eaten - s.eaten <= s.basket + (r.gathered - s.gathered)
  {
    var b := s.(meters := BaselineAll(s.meters));
    var acts := Decisions(b.meters, s.basket, |s.meters|);
    ActUpToFacts(b, acts, ForageProbability(CountForagers(acts)), coin, |acts|);
    assert acts[..|acts|] == acts;
    ActUpTo(b, acts, ForageProbability(CountForagers(acts)), coin, |acts|)
  }

  /** A tick consumes at most one draw per forager among its decisions. */
  lemma NextTickDrawsPerForager(s: Phase, coin: Coin)
    ensures var acts := Decisions(BaselineAll(s.meters), s.basket, |s.meters|);
      NextTick(s, coin).drawn <= s.drawn + CountForagers(acts)
  {
    var b := s.(meters := BaselineAll(s.meters));
    var acts := Decisions(b.meters, s.basket, |s.meters|);
    ActUpToFacts(b, acts, ForageProbability(CountForagers(acts)), coin, |acts|);
    assert acts[..|acts|] == acts;
  }

  /** A tick never lowers an agent's hunger when no agent decides to eat. */
  lemma {:induction false} NoEatHungerRises(s: Phase, acts: seq<Action>, p: real, coin: Coin, i: nat)
    requires |acts| == |s.meters| && i <= |acts|
    requires AllInRange(s.meters)
    requires Eat !in acts
    ensures forall j :: 0 <= j < |s.meters| ==>
      ActUpTo(s, acts, p, coin, i).meters[j].hunger >= s.meters[j].hunger
  {
    if i > 0 {
      NoEatHungerRises(s, acts, p, coin, i - 1);
      ActUpToFacts(s, acts, p, coin, i - 1);
      var prev := ActUpTo(s, acts, p, coin, i - 1);
      ActFacts(prev, i - 1, acts[i - 1], p, coin);
      assert acts[i - 1] in acts;
      assert prev.meters[i - 1] == s.meters[i - 1];
    }
  }

  /** With an empty basket and an empty field a tick can neither feed nor
      gather: both pools stay empty, no draw is consumed, and every agent's
      hunger rises by at least one (or stays at 100). */
  lemma BarrenTick(s: Phase, coin: Coin)
    requires WellFormed(s) && s.basket == 0 && s.field == 0
    ensures var r := NextTick(s, coin);
      r.basket == 0 && r.field == 0 && r.eaten == s.eaten && r.gathered == s.gathered && r.drawn == s.drawn &&
      forall j :: 0 <= j < |s.meters| ==> r.meters[j].hunger >= Raise(s.meters[j].hunger, 1)
  {
    var b := s.(meters := BaselineAll(s.meters));
    var acts := Decisions(b.meters, s.basket, |s.meters|);
    NoEatHungerRises(b, acts, ForageProbability(CountForagers(acts)), coin, |acts|);
  }

  /** The decisions of a tick are all made before any action: an agent that
      comes late may find the basket emptied, and one that comes after a
      successful forager may eat food that did not exist when the tick began.
      Here, with the six villagers of a run, one forager succeeds and two
      hungry agents both eat from a basket that held one unit at the start of
      the tick. */
  lemma EatsCanOutrunStartingBasket()
    ensures var s := Phase([Meters(0, 100), Meters(80, 100), Meters(80, 100),
                            Meters(0, 100), Meters(0, 100), Meters(0, 100)], 1, 5, 0, 0, 0);
      var r := NextTick(s, (k: nat, p: real) => k == 0);
      r.eaten == 2 > s.basket && r.gathered == 1
  {
    var s := Phase([Meters(0, 100), Meters(80, 100), Meters(80, 100),
                    Meters(0, 100), Meters(0, 100), Meters(0, 100)], 1, 5, 0, 0, 0);
    var coin: Coin := (k: nat, p: real) => k == 0;
    var b := s.(meters := BaselineAll(s.meters));
    assert b.meters == [Meters(1, 100), Meters(81, 100), Meters(81, 100),
                        Meters(1, 100), Meters(1, 100), Meters(1, 100)];
    var acts := Decisions(b.meters, s.basket, 6);
    assert acts == [Forage, Eat, Eat, Forage, Forage, Forage];
    var p := ForageProbability(CountForagers(acts));
    assert coin(0, p);
    assert ActUpTo(b, acts, p, coin, 0) == b;
    var a1 := ActUpTo(b, acts, p, coin, 1);
    assert a1.basket == 2 && a1.gathered == 1 && a1.eaten == 0 && a1.drawn == 1;
    var a2 := ActUpTo(b, acts, p, coin, 2);
    assert a2.basket == 1 && a2.eaten == 1;
    var a3 := ActUpTo(b, acts, p, coin, 3);
    assert a3.basket == 0 && a3.eaten == 2 && a3.gathered == 1 && a3.drawn == 1;
    var a4 := ActUpTo(b, acts, p, coin, 4);
    assert !coin(1, p);
    assert a4.eaten == 2 && a4.gathered == 1 && a4.drawn == 2;
    var a5 := ActUpTo(b, acts, p, coin, 5);
    assert !coin(2, p);
    assert a5.eaten == 2 && a5.gathered == 1 && a5.drawn == 3;
    assert !coin(3, p);
  }
}

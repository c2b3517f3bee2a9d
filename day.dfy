/** A day: the counters reset, a fixed number of ticks, the day's report,
    then the field regenerates; and a run of consecutive days (the day loop
    of simulate in gatherers_village.py). */
module Days {
  import opened Agents
  import opened Policy
  import opened Ticks

  /** Hunger at which an agent counts as a starvation warning. */
  const StarvingAt: int := 95

  /** One line of the daily output. The source prints average hunger and
      energy; the report keeps their integer sums over all agents. */
  datatype Report = Report(
    day: nat,
    basket: int,
    hungerSum: int,
    energySum: int,
    gathered: int,
    eaten: int,
    starvationWarnings: nat)

  /** Number of agents whose hunger is at least 95. */
  function StarvingCount(ms: seq<Meters>): (c: nat)
    ensures c <= |ms|
    ensures c == 0 <==> forall k :: 0 <= k < |ms| ==> ms[k].hunger < StarvingAt
    ensures c == |ms| <==> forall k :: 0 <= k < |ms| ==> ms[k].hunger >= StarvingAt
  {
    if ms == [] then 0
    else StarvingCount(ms[..|ms| - 1]) + (if ms[|ms| - 1].hunger >= StarvingAt then 1 else 0)
  }

  /** An agent whose hunger does not fall cannot leave the starving set, so
      the warning count cannot drop. */
  lemma {:induction false} StarvingCountMonotone(ms: seq<Meters>, ns: seq<Meters>)
    requires |ms| == |ns|
    requires forall k :: 0 <= k < |ms| ==> ms[k].hunger <= ns[k].hunger
    ensures StarvingCount(ms) <= StarvingCount(ns)
  {
    if ms != [] {
      StarvingCountMonotone(ms[..|ms| - 1], ns[..|ns| - 1]);
    }
  }

  /** Total hunger over all agents. */
  function HungerSum(ms: seq<Meters>): (t: int)
    ensures AllInRange(ms) ==> 0 <= t <= MeterMax * |ms|
  {
    if ms == [] then 0 else HungerSum(ms[..|ms| - 1]) + ms[|ms| - 1].hunger
  }

  /** Total energy over all agents. */
  function EnergySum(ms: seq<Meters>): (t: int)
    ensures AllInRange(ms) ==> 0 <= t <= MeterMax * |ms|
  {
    if ms == [] then 0 else EnergySum(ms[..|ms| - 1]) + ms[|ms| - 1].energy
  }

  /** t consecutive ticks. Within a day nothing refills the field, so it
      only shrinks, and exactly by what was gathered. */
  function TicksUpTo(s: Phase, coin: Coin, t: nat): (r: Phase)
    ensures |r.meters| == |s.meters|
    ensures WellFormed(s) ==> WellFormed(r)
    ensures r.basket + r.field + r.eaten == s.basket + s.field + s.eaten
    ensures r.field + r.gathered == s.field + s.gathered
    ensures s.gathered <= r.gathered && s.eaten <= r.eaten && s.drawn <= r.drawn
    ensures s.field <= 0 ==> r.field == s.field && r.gathered == s.gathered && r.drawn == s.drawn
  {
    if t == 0 then s else NextTick(TicksUpTo(s, coin, t - 1), coin)
  }

  /** The state at the start of a day: the day's counters are zero. */
  function DayStart(s: Phase): (r: Phase) {
    s.(gathered := 0, eaten := 0)
  }

  /** The state after the day's ticks and the report read from it. */
  function DayReport(e: Phase, day: nat): (r: Report) {
    Report(day, e.basket, HungerSum(e.meters), EnergySum(e.meters), e.gathered, e.eaten, StarvingCount(e.meters))
  }

  /** One day: reset the counters, run the ticks, report, then add regen
      to the field with no upper bound. */
  function RunDay(s: Phase, day: nat, ticksPerDay: nat, regen: int, coin: Coin): (r: (Phase, Report))
    ensures r.1.day == day
    ensures r.1.starvationWarnings <= |s.meters|
    ensures |r.0.meters| == |s.meters|
    ensures r.1.basket == r.0.basket
    ensures r.1.basket == s.basket + r.1.gathered - r.1.eaten
    ensures r.0.field == s.field - r.1.gathered + regen
    ensures r.1.starvationWarnings == StarvingCount(r.0.meters)
    ensures r.1.hungerSum == HungerSum(r.0.meters) && r.1.energySum == EnergySum(r.0.meters)
    ensures r.0.gathered == r.1.gathered && r.0.eaten == r.1.eaten
    ensures WellFormed(s) && regen >= 0 ==> WellFormed(r.0)
    ensures WellFormed(s) ==>
      r.1.basket >= 0 && 0 <= r.1.gathered <= s.field && r.1.eaten >= 0 &&
      0 <= r.1.hungerSum <= MeterMax * |s.meters| && 0 <= r.1.energySum <= MeterMax * |s.meters|
  {
    var e := TicksUpTo(DayStart(s), coin, ticksPerDay);
    (e.(field := e.field + regen), DayReport(e, day))
  }

  /** The first d days of a run, numbered from 1, and their reports in day order. */
  function DaysUpTo(s: Phase, ticksPerDay: nat, regen: int, coin: Coin, d: nat): (r: (Phase, seq<Report>))
    ensures |r.1| == d
    ensures |r.0.meters| == |s.meters|
    ensures WellFormed(s) && regen >= 0 ==> WellFormed(r.0)
    ensures forall i :: 0 <= i < d ==> r.1[i].day == i + 1 && r.1[i].starvationWarnings <= |s.meters|
    ensures WellFormed(s) && regen >= 0 ==>
      forall i :: 0 <= i < d ==> r.1[i].basket >= 0 && r.1[i].gathered >= 0 && r.1[i].eaten >= 0
    ensures d > 0 ==> r.1[d - 1].starvationWarnings == StarvingCount(r.0.meters)
  {
    if d == 0 then (s, [])
    else
      var prev := DaysUpTo(s, ticksPerDay, regen, coin, d - 1);
      var next := RunDay(prev.0, d, ticksPerDay, regen, coin);
      (next.0, prev.1 + [next.1])
  }

  /** A well-formed village whose basket and field are both empty. */
  predicate Barren(s: Phase) {
    WellFormed(s) && s.basket == 0 && s.field == 0
  }

  /** A barren village stays barren through any number of ticks, and
      nothing is eaten, gathered or drawn. */
  lemma BarrenTicks(s: Phase, coin: Coin, t: nat)
    requires Barren(s)
    ensures var r := TicksUpTo(s, coin, t);
      Barren(r) && r.eaten == s.eaten && r.gathered == s.gathered && r.drawn == s.drawn
  {
  }

  /** In a barren village each agent's hunger grows by at least one per
      tick, up to 100. */
  lemma {:induction false} BarrenHungerGrows(s: Phase, coin: Coin, t: nat)
    requires Barren(s)
    ensures forall j :: 0 <= j < |s.meters| ==>
      TicksUpTo(s, coin, t).meters[j].hunger >= Raise(s.meters[j].hunger, t)
  {
    if t > 0 {
      BarrenHungerGrows(s, coin, t - 1);
      BarrenTicks(s, coin, t - 1);
      var q := TicksUpTo(s, coin, t - 1);
      BarrenTick(q, coin);
      var r := TicksUpTo(s, coin, t);
      assert r == NextTick(q, coin);
      forall j | 0 <= j < |s.meters|
        ensures r.meters[j].hunger >= Raise(s.meters[j].hunger, t)
      {
        RaiseChain(s.meters[j].hunger, q.meters[j].hunger, r.meters[j].hunger, t - 1, 1);
      }
    }
  }

  /** Saturating raises compose: raising by a and then by b reaches at
      least the single raise by a + b. */
  lemma RaiseChain(x: int, y: int, z: int, a: nat, b: nat)
    requires y >= Raise(x, a) && z >= Raise(y, b)
    ensures z >= Raise(x, a + b)
  {
  }

  /** One barren day without regeneration leaves the village barren, uses
      no draw, and reports an empty basket and nothing gathered or eaten. */
  lemma BarrenDay(s: Phase, day: nat, ticksPerDay: nat, coin: Coin)
    requires Barren(s)
    ensures var r := RunDay(s, day, ticksPerDay, 0, coin);
      Barren(r.0) && r.0.drawn == s.drawn && r.1.basket == 0 && r.1.gathered == 0 && r.1.eaten == 0
  {
    BarrenTicks(DayStart(s), coin, ticksPerDay);
  }

  /** Without regeneration a barren village stays barren day after day:
      every report shows an empty basket and nothing gathered or eaten, and
      no draw is consumed. */
  lemma {:induction false} BarrenDays(s: Phase, ticksPerDay: nat, coin: Coin, d: nat)
    requires Barren(s)
    ensures var r := DaysUpTo(s, ticksPerDay, 0, coin, d);
      Barren(r.0) && r.0.drawn == s.drawn &&
      forall i :: 0 <= i < d ==> r.1[i].basket == 0 && r.1[i].gathered == 0 && r.1[i].eaten == 0
  {
    if d > 0 {
      BarrenDays(s, ticksPerDay, coin, d - 1);
      var prev := DaysUpTo(s, ticksPerDay, 0, coin, d - 1);
      var next := RunDay(prev.0, d, ticksPerDay, 0, coin);
      BarrenDay(prev.0, d, ticksPerDay, coin);
      assert DaysUpTo(s, ticksPerDay, 0, coin, d) == (next.0, prev.1 + [next.1]);
    }
  }

  /** One barren day without regeneration raises every agent's hunger by
      at least ticksPerDay (up to 100). */
  lemma BarrenDayHunger(s: Phase, day: nat, ticksPerDay: nat, coin: Coin)
    requires Barren(s)
    ensures forall j :: 0 <= j < |s.meters| ==>
      RunDay(s, day, ticksPerDay, 0, coin).0.meters[j].hunger >= Raise(s.meters[j].hunger, ticksPerDay)
  {
    BarrenHungerGrows(DayStart(s), coin, ticksPerDay);
  }

  /** The number of ticks in d days: d * ticksPerDay, built up day by day. */
  function TicksInDays(d: nat, ticksPerDay: nat): (n: nat)
    ensures n == d * ticksPerDay
  {
    if d == 0 then 0 else TicksInDays(d - 1, ticksPerDay) + ticksPerDay
  }

  /** In a barren village without regeneration every agent's hunger after d
      days is at least its starting hunger raised by the number of ticks run. */
  lemma {:induction false} BarrenDaysHunger(s: Phase, ticksPerDay: nat, coin: Coin, d: nat)
    requires Barren(s)
    ensures var r := DaysUpTo(s, ticksPerDay, 0, coin, d);
      forall j :: 0 <= j < |s.meters| ==> r.0.meters[j].hunger >= Raise(s.meters[j].hunger, TicksInDays(d, ticksPerDay))
  {
    if d > 0 {
      BarrenDaysHunger(s, ticksPerDay, coin, d - 1);
      BarrenDays(s, ticksPerDay, coin, d - 1);
      var prev := DaysUpTo(s, ticksPerDay, 0, coin, d - 1);
      BarrenDayHunger(prev.0, d, ticksPerDay, coin);
      var r := DaysUpTo(s, ticksPerDay, 0, coin, d);
      assert r.0 == RunDay(prev.0, d, ticksPerDay, 0, coin).0;
      var before := TicksInDays(d - 1, ticksPerDay);
      forall j | 0 <= j < |s.meters|
        ensures r.0.meters[j].hunger >= Raise(s.meters[j].hunger, TicksInDays(d, ticksPerDay))
      {
        RaiseChain(s.meters[j].hunger, prev.0.meters[j].hunger, r.0.meters[j].hunger, before, ticksPerDay);
      }
    }
  }

  /** Once a barren village without regeneration has run at least 95 ticks,
      every agent is a starvation warning in the last report. */
  lemma BarrenVillageStarves(s: Phase, ticksPerDay: nat, coin: Coin, d: nat)
    requires Barren(s) && d > 0 && d * ticksPerDay >= StarvingAt
    ensures DaysUpTo(s, ticksPerDay, 0, coin, d).1[d - 1].starvationWarnings == |s.meters|
  {
    BarrenDaysHunger(s, ticksPerDay, coin, d);
    var r := DaysUpTo(s, ticksPerDay, 0, coin, d);
    assert forall j :: 0 <= j < |r.0.meters| ==> r.0.meters[j].hunger >= StarvingAt;
  }
}

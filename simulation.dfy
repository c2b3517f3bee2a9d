/** The village as the source runs it: a list of agents whose meters change
    in place, and the shared basket, field and day counters that the tick
    and day loops of simulate update (gatherers_village.py). Every method is
    proved to do exactly what the value model of Ticks and Days describes. */
module Simulation {
  import opened Agents
  import opened Policy
  import opened Ticks
  import opened Days

  /** The constants simulate starts from. */
  const Villagers: nat := 6
  const StartBasket: int := 3
  const StartField: int := 40
  const Regen: int := 20

  /** Decimal digits of i, as in the agent names `A0`, `A1`, .... */
  function Digits(i: nat): (r: string)
    ensures |r| >= 1
    ensures forall c :: c in r ==> '0' <= c <= '9'
  {
    if i < 10 then [(i + '0' as int) as char]
    else Digits(i / 10) + [(i % 10 + '0' as int) as char]
  }

  /** The state simulate starts from: six sated, rested agents, a basket of
      3, a field of 40, and no draw consumed yet. */
  function InitialPhase(): (s: Phase)
    ensures WellFormed(s) && |s.meters| == Villagers
    ensures s.basket == StartBasket && s.field == StartField
    ensures s.gathered == 0 && s.eaten == 0 && s.drawn == 0
    ensures forall k :: 0 <= k < Villagers ==> s.meters[k] == Meters(0, MeterMax)
  {
    Phase(seq(Villagers, k => Meters(0, MeterMax)), StartBasket, StartField, 0, 0, 0)
  }

  class Village {
    const agents: seq<Agent>
    var basket: int
    var field: int
    var gathered: int
    var eaten: int
    var drawn: nat

    /** No agent appears twice, so acting on one leaves the others alone. */
    predicate Distinct() {
      forall j, k :: 0 <= j < k < |agents| ==> agents[j] != agents[k]
    }

    /** The agents' meters, in agent order. */
    function AllMeters(): (ms: seq<Meters>)
      reads agents
      ensures |ms| == |agents|
      ensures forall k :: 0 <= k < |agents| ==> ms[k] == agents[k].State()
    {
      seq(|agents|, k reads agents requires 0 <= k < |agents| => agents[k].State())
    }

    /** The village as a value. */
    function View(): (s: Phase)
      reads this, agents
    {
      Phase(AllMeters(), basket, field, gathered, eaten, drawn)
    }

    predicate Valid()
      reads this, agents
    {
      Distinct() && WellFormed(View())
    }

    /** Six new agents named A0 to A5, in order, with the starting basket
        and field and zero counters. */
    constructor ()
      ensures Valid() && View() == InitialPhase()
      ensures forall k :: 0 <= k < |agents| ==> fresh(agents[k]) && agents[k].name == "A" + Digits(k)
    {
      var list: seq<Agent> := [];
      var i := 0;
      while i < Villagers
        invariant 0 <= i <= Villagers && |list| == i
        invariant forall k :: 0 <= k < i ==> fresh(list[k]) && list[k].name == "A" + Digits(k)
        invariant forall k :: 0 <= k < i ==> list[k].State() == Meters(0, MeterMax)
        invariant forall j, k :: 0 <= j < k < i ==> list[j] != list[k]
      {
        var a := new Agent("A" + Digits(i));
        list := list + [a];
        i := i + 1;
      }
      agents := list;
      basket := StartBasket;
      field := StartField;
      gathered := 0;
      eaten := 0;
      drawn := 0;
      new;
      assert View().meters == InitialPhase().meters;
    }

    /** Applies the start-of-tick hunger increase to every agent, in order. */
    method BaselineEveryone()
      requires Valid()
      modifies agents
      ensures Valid()
      ensures View() == old(View()).(meters := BaselineAll(old(View()).meters))
    {
      ghost var ms := AllMeters();
      var i := 0;
      while i < |agents|
        invariant 0 <= i <= |agents|
        invariant forall k :: 0 <= k < i ==> agents[k].State() == AfterBaseline(ms[k])
        invariant forall k :: i <= k < |agents| ==> agents[k].State() == ms[k]
      {
        agents[i].Baseline();
        i := i + 1;
      }
      assert AllMeters() == BaselineAll(ms);
    }

    /** Builds the whole list of decisions, one per agent in order, before
        any action runs: every decision is taken against the same basket value. */
    method DecideEveryone() returns (actions: seq<Action>)
      ensures actions == Decisions(AllMeters(), basket, |agents|)
    {
      actions := [];
      var i := 0;
      while i < |agents|
        invariant 0 <= i <= |agents| && |actions| == i
        invariant forall k :: 0 <= k < i ==> actions[k] == Decide(agents[k].State(), basket, |agents|)
      {
        actions := actions + [Decide(agents[i].State(), basket, |agents|)];
        i := i + 1;
      }
    }

    /** Agent i carries out action a: an eat only while the basket holds
        food; a forage always costs its meters, and draws once, against p,
        only while the field holds food. */
    method ActOne(i: nat, a: Action, p: real, coin: Coin)
      requires Distinct() && i < |agents|
      modifies this, agents[i]
      ensures View() == Act(old(View()), i, a, p, coin)
    {
      var ag := agents[i];
      if a == Eat {
        if basket > 0 {
          basket := basket - 1;
          ag.Eat();
          eaten := eaten + 1;
        }
      } else if a == Rest {
        ag.Rest();
      } else {
        ag.Forage();
        if field > 0 {
          var success := coin(drawn, p);
          drawn := drawn + 1;
          if success {
            basket := basket + 1;
            field := field - 1;
            gathered := gathered + 1;
          }
        }
      }
    }

    /** Carries out each agent's action in agent order, pairing agent i with
        the i-th decision. */
    method ActEveryone(actions: seq<Action>, p: real, coin: Coin)
      requires Distinct() && |actions| == |agents|
      modifies this, agents
      ensures View() == ActUpTo(old(View()), actions, p, coin, |actions|)
    {
      ghost var s := View();
      var i := 0;
      while i < |agents|
        invariant 0 <= i <= |agents|
        invariant View() == ActUpTo(s, actions, p, coin, i)
      {
        ActOne(i, actions[i], p, coin);
        i := i + 1;
      }
    }

    /** One tick: every agent's baseline, every decision against the
        basket as it was before any action, the shared success probability,
        then each agent's action in agent order. */
    method Tick(coin: Coin)
      requires Valid()
      modifies this, agents
      ensures Valid()
      ensures View() == NextTick(old(View()), coin)
    {
      ghost var s := View();
      BaselineEveryone();
      ghost var b := View();
      var actions := DecideEveryone();
      assert actions == Decisions(b.meters, s.basket, |s.meters|);
      var p := ForageProbability(CountForagers(actions));
      ActEveryone(actions, p, coin);
      assert View() == NextTick(s, coin);
    }

    /** The day's report line: basket, the hunger and energy totals behind
        the printed averages, the day's counters and the number of agents
        at hunger 95 or more. */
    method TakeReport(day: nat) returns (report: Report)
      ensures report == DayReport(View(), day)
    {
      var hungerSum, energySum, starving := 0, 0, 0;
      ghost var ms := AllMeters();
      var i := 0;
      while i < |agents|
        invariant 0 <= i <= |agents|
        invariant hungerSum == HungerSum(ms[..i]) && energySum == EnergySum(ms[..i])
        invariant starving == StarvingCount(ms[..i])
      {
        assert ms[..i + 1][..i] == ms[..i];
        hungerSum := hungerSum + agents[i].hunger;
        energySum := energySum + agents[i].energy;
        if agents[i].hunger >= StarvingAt {
          starving := starving + 1;
        }
        i := i + 1;
      }
      assert ms[..i] == ms;
      report := Report(day, basket, hungerSum, energySum, gathered, eaten, starving);
    }

    /** Runs the given number of ticks, one after another. */
    method RunTicks(ticks: nat, coin: Coin)
      requires Valid()
      modifies this, agents
      ensures Valid()
      ensures View() == TicksUpTo(old(View()), coin, ticks)
    {
      ghost var start := View();
      var t := 0;
      while t < ticks
        invariant 0 <= t <= ticks
        invariant Valid()
        invariant View() == TicksUpTo(start, coin, t)
      {
        Tick(coin);
        t := t + 1;
      }
    }

    /** One day: reset the day's counters, run the ticks, take the report,
        then let the field regrow. */
    method Day(day: nat, ticksPerDay: nat, coin: Coin) returns (report: Report)
      requires Valid()
      modifies this, agents
      ensures Valid()
      ensures View() == RunDay(old(View()), day, ticksPerDay, Regen, coin).0
      ensures report == RunDay(old(View()), day, ticksPerDay, Regen, coin).1
    {
      ghost var s := View();
      gathered := 0;
      eaten := 0;
      ghost var start := View();
      assert start == DayStart(s);
      RunTicks(ticksPerDay, coin);
      ghost var e := View();
      report := TakeReport(day);
      field := field + Regen;
      assert View() == e.(field := e.field + Regen);
    }
  }

  /** A whole run: a village in its starting state lives through the given
      number of days, and the reports of days 1 to days come back in order. */
  method Simulate(days: nat, ticksPerDay: nat, coin: Coin) returns (reports: seq<Report>)
    ensures reports == DaysUpTo(InitialPhase(), ticksPerDay, Regen, coin, days).1
    ensures |reports| == days
    ensures forall i :: 0 <= i < days ==>
      reports[i].day == i + 1 && reports[i].starvationWarnings <= Villagers &&
      reports[i].basket >= 0 && reports[i].gathered >= 0 && reports[i].eaten >= 0
  {
    var village := new Village();
    reports := [];
    var day := 1;
    while day <= days
      invariant 1 <= day <= days + 1
      invariant village.Valid()
      invariant forall k :: 0 <= k < |village.agents| ==> fresh(village.agents[k])
      invariant (village.View(), reports) == DaysUpTo(InitialPhase(), ticksPerDay, Regen, coin, day - 1)
    {
      var report := village.Day(day, ticksPerDay, coin);
      reports := reports + [report];
      day := day + 1;
    }
  }
}

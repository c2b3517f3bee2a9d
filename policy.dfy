/** The decision rule each agent applies once per tick, and the forage
    success probability shared by all foragers of a tick (function policy and
    the computation of p in gatherers_village.py). */
module Policy {
  import opened Agents

  datatype Action = Eat | Forage | Rest

  /** Hunger at which an agent eats if the basket has food. */
  const HungryAt: int := 70
  /** Energy an agent needs to forage while the basket is low. */
  const ForageEnergyMin: int := 25
  /** Energy below which an agent rests rather than forages. */
  const TiredBelow: int := 30

  /** The basket level at or below which food counts as scarce: half the
      number of agents, rounded down, but never below 1. */
  function ScarceAt(n: nat): (t: nat)
    ensures 1 <= t && t <= (if n < 2 then 1 else n)
    ensures n < 2 ==> t == 1
    ensures n >= 2 ==> 2 * t <= n < 2 * t + 2
  {
    if n / 2 < 1 then 1 else n / 2
  }

  /** First-match-wins rule: eat when hungry and food is there, forage when
      food is scarce and energy allows, rest when tired, otherwise forage. */
  function Decide(m: Meters, basket: int, n: nat): (a: Action)
    ensures basket <= 0 ==> a != Eat
  {
    if m.hunger >= HungryAt && basket > 0 then Eat
    else if basket <= ScarceAt(n) && m.energy >= ForageEnergyMin then Forage
    else if m.energy < TiredBelow then Rest
    else Forage
  }

  /** Each decision exactly when its rule is the first to match; a forager
      always has at least 25 energy. */
  lemma DecideRules(m: Meters, basket: int, n: nat)
    ensures Decide(m, basket, n) == Eat <==> m.hunger >= HungryAt && basket > 0
    ensures Decide(m, basket, n) == Rest <==>
      !(m.hunger >= HungryAt && basket > 0) &&
      !(basket <= ScarceAt(n) && m.energy >= ForageEnergyMin) &&
      m.energy < TiredBelow
    ensures Decide(m, basket, n) == Forage <==>
      !(m.hunger >= HungryAt && basket > 0) &&
      ((basket <= ScarceAt(n) && m.energy >= ForageEnergyMin) || m.energy >= TiredBelow)
    ensures Decide(m, basket, n) == Forage ==> m.energy >= ForageEnergyMin
  {
  }

  /** Every agent's decision, taken against one and the same basket value. */
  function Decisions(ms: seq<Meters>, basket: int, n: nat): (acts: seq<Action>)
    ensures |acts| == |ms|
    ensures forall k :: 0 <= k < |ms| ==> acts[k] == Decide(ms[k], basket, n)
    ensures basket <= 0 ==> Eat !in acts
  {
    seq(|ms|, k requires 0 <= k < |ms| => Decide(ms[k], basket, n))
  }

  /** How many of the decisions are Forage. */
  function CountForagers(acts: seq<Action>): (c: nat)
    ensures c <= |acts|
  {
    if acts == [] then 0
    else CountForagers(acts[..|acts| - 1]) + (if acts[|acts| - 1] == Forage then 1 else 0)
  }

  /** Nobody forages exactly when the count is zero, and everybody forages
      exactly when it is the full length. */
  lemma {:induction false} CountForagersExtremes(acts: seq<Action>)
    ensures CountForagers(acts) == 0 <==> Forage !in acts
    ensures CountForagers(acts) == |acts| <==> forall k :: 0 <= k < |acts| ==> acts[k] == Forage
  {
    if acts != [] {
      var init := acts[..|acts| - 1];
      CountForagersExtremes(init);
      assert acts == init + [acts[|acts| - 1]];
    }
  }

  /** The count is the number of occurrences of Forage in the list. */
  lemma {:induction false} CountForagersIsMultiplicity(acts: seq<Action>)
    ensures CountForagers(acts) == multiset(acts)[Forage]
  {
    if acts != [] {
      var init := acts[..|acts| - 1];
      CountForagersIsMultiplicity(init);
      assert acts == init + [acts[|acts| - 1]];
    }
  }

  /** Success probability of one forage draw. */
  const PBase: real := 0.2
  const Synergy: real := 0.15
  const PCap: real := 0.9

  /** The base probability plus the synergy bonus for every forager after
      the first, capped at PCap; 0 when nobody forages. */
  function ForageProbability(foragers: nat): (p: real)
    ensures foragers == 0 ==> p == 0.0
    ensures foragers == 1 ==> p == PBase
    ensures foragers > 0 ==> PBase <= p <= PCap
    ensures foragers > 0 && PBase + Synergy * (foragers - 1) as real >= PCap ==> p == PCap
    ensures foragers > 0 && PBase + Synergy * (foragers - 1) as real <= PCap ==>
      p == PBase + Synergy * (foragers - 1) as real
  {
    if foragers == 0 then 0.0
    else
      var q := PBase + Synergy * (foragers - 1) as real;
      if q <= PCap then q else PCap
  }

  /** More foragers never lower the probability. */
  lemma ForageProbabilityMonotone(a: nat, b: nat)
    requires a <= b
    ensures ForageProbability(a) <= ForageProbability(b)
  {
  }

  /** With the default constants six simultaneous foragers would reach 0.95,
      so the cap of 0.9 is what they use; five foragers stay below it. */
  lemma CapBindsAtSixForagers()
    ensures ForageProbability(5) == 0.8
    ensures ForageProbability(6) == PCap
  {
  }
}

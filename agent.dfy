/** The villager: two integer meters and the four actions that change them
    (class Agent of gatherers_village.py). Every action saturates both meters
    to [0, MeterMax], so no action can leave the valid range. */
module Agents {

  /** Upper end of both meters: 100 means starving (hunger) or fully rested (energy). */
  const MeterMax: int := 100

  /** What one action adds to or takes from a meter. */
  const BaselineHunger: nat := 1
  const ForageEnergyCost: nat := 12
  const ForageHunger: nat := 5
  const RestEnergy: nat := 20
  const RestHunger: nat := 2
  const EatRelief: nat := 30
  const EatEnergy: nat := 5

  /** An agent's hunger (0 sated .. 100 starving) and energy (0 exhausted .. 100 rested). */
  datatype Meters = Meters(hunger: int, energy: int)

  predicate InRange(m: Meters) {
    0 <= m.hunger <= MeterMax && 0 <= m.energy <= MeterMax
  }

  /** x raised by d, saturating at MeterMax. */
  function Raise(x: int, d: nat): (r: int) {
    if x + d <= MeterMax then x + d else MeterMax
  }

  /** x lowered by d, saturating at 0. */
  function Lower(x: int, d: nat): (r: int) {
    if x - d >= 0 then x - d else 0
  }

  /** The unconditional start-of-tick hunger increase. */
  function AfterBaseline(m: Meters): (r: Meters)
    ensures InRange(m) ==> InRange(r)
    ensures r.energy == m.energy
    ensures m.hunger < MeterMax ==> r.hunger == m.hunger + 1
    ensures m.hunger >= MeterMax ==> r.hunger == MeterMax
  {
    m.(hunger := Raise(m.hunger, BaselineHunger))
  }

  /** Foraging costs 12 energy (floored at 0) and adds 5 hunger (capped at 100). */
  function AfterForage(m: Meters): (r: Meters)
    ensures InRange(m) ==> InRange(r)
    ensures m.energy >= ForageEnergyCost ==> r.energy == m.energy - ForageEnergyCost
    ensures m.energy < ForageEnergyCost ==> r.energy == 0
    ensures InRange(m) ==> m.hunger <= r.hunger <= m.hunger + ForageHunger
    ensures m.hunger + ForageHunger <= MeterMax ==> r.hunger == m.hunger + ForageHunger
    ensures m.hunger + ForageHunger > MeterMax ==> r.hunger == MeterMax
  {
    Meters(Raise(m.hunger, ForageHunger), Lower(m.energy, ForageEnergyCost))
  }

  /** Resting restores 20 energy and adds 2 hunger, both capped at 100. */
  function AfterRest(m: Meters): (r: Meters)
    ensures InRange(m) ==> InRange(r)
    ensures InRange(m) ==> m.energy <= r.energy <= m.energy + RestEnergy
    ensures m.energy + RestEnergy <= MeterMax ==> r.energy == m.energy + RestEnergy
    ensures m.energy + RestEnergy > MeterMax ==> r.energy == MeterMax
    ensures InRange(m) ==> m.hunger <= r.hunger <= m.hunger + RestHunger
    ensures m.hunger + RestHunger <= MeterMax ==> r.hunger == m.hunger + RestHunger
    ensures m.hunger + RestHunger > MeterMax ==> r.hunger == MeterMax
  {
    Meters(Raise(m.hunger, RestHunger), Raise(m.energy, RestEnergy))
  }

  /** Eating removes 30 hunger (floored at 0) and restores 5 energy (capped at 100). */
  function AfterEat(m: Meters): (r: Meters)
    ensures InRange(m) ==> InRange(r)
    ensures m.hunger >= EatRelief ==> r.hunger == m.hunger - EatRelief
    ensures m.hunger < EatRelief ==> r.hunger == 0
    ensures InRange(m) ==> m.energy <= r.energy <= m.energy + EatEnergy
    ensures m.energy + EatEnergy <= MeterMax ==> r.energy == m.energy + EatEnergy
    ensures m.energy + EatEnergy > MeterMax ==> r.energy == MeterMax
  {
    Meters(Lower(m.hunger, EatRelief), Raise(m.energy, EatEnergy))
  }

  /** One villager. The name never changes; each action updates only this
      agent's own meters, in place. */
  class Agent {
    const name: string
    var hunger: int
    var energy: int

    /** A new agent is sated and fully rested. */
    constructor (name: string)
      ensures this.name == name
      ensures State() == Meters(0, MeterMax) && InRange(State())
    {
      this.name := name;
      hunger := 0;
      energy := MeterMax;
    }

    /** This agent's meters as a value. */
    function State(): (m: Meters)
      reads this
    {
      Meters(hunger, energy)
    }

    method Baseline()
      modifies this
      ensures State() == AfterBaseline(old(State()))
    {
      hunger := Raise(hunger, BaselineHunger);
    }

    method Forage()
      modifies this
      ensures State() == AfterForage(old(State()))
    {
      energy := Lower(energy, ForageEnergyCost);
      hunger := Raise(hunger, ForageHunger);
    }

    method Rest()
      modifies this
      ensures State() == AfterRest(old(State()))
    {
      energy := Raise(energy, RestEnergy);
      hunger := Raise(hunger, RestHunger);
    }

    method Eat()
      modifies this
      ensures State() == AfterEat(old(State()))
    {
      hunger := Lower(hunger, EatRelief);
      energy := Raise(energy, EatEnergy);
    }
  }
}

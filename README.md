# Gatherers' village, modelled in Dafny

A small closed economy of foraging villagers, as simulated by
`gatherers_village.py`. Each villager has two meters, hunger and energy,
both kept in [0, 100]. The villagers share a basket of food and a field
that food is gathered from.

Every tick runs four steps in a fixed order:

1. Every villager gets a little hungrier.
2. Every villager picks eat, forage or rest by a first-match rule. All of
   them decide against the basket as it was before anyone acts.
3. The foragers of the tick share one success probability.
4. The actions run in villager order against the shared basket and field.
   An eat succeeds only while the basket holds food. A forager always pays
   the forage cost. It tries to gather, with one random draw, only while
   the field holds food.

A day is a fixed number of ticks. After them comes a report line, and then
the field grows back by a fixed amount, with no cap.

The project has two layers.

- A value layer: `Agents`, `Policy`, `Ticks` and `Days`. Here a tick
  (`Ticks.NextTick`), a day (`Days.RunDay`) and a run (`Days.DaysUpTo`) are
  functions on a `Phase`. A `Phase` holds every villager's meters, the
  basket, the field, the day's gathered and eaten counters, and the number
  of random draws used so far. The properties are proved on this layer:
  - meters stay clamped;
  - basket and field are never negative;
  - food is conserved between field, basket and stomachs;
  - an empty field consumes no draw;
  - each forager consumes at most one draw;
  - the success probability's guard and cap hold;
  - the starvation count;
  - the fate of a village with no food.
- An imperative layer: `Agents.Agent` and `Simulation.Village`. Here the
  villagers are objects whose meters change in place. The village's
  methods follow the source's loops: baseline for everyone, the decision
  list, one action per villager, the ticks of a day, the report and the
  regrowth. Each method is proved to produce exactly the state that the
  value layer describes. For example, `Village.Tick` ensures
  `View() == NextTick(old(View()), coin)`.

Randomness is an input. `coin(k, p)` is the outcome of the k-th uniform
draw of the run compared against the probability `p`. The model counts the
draws it consumes, so "one draw per forager, and only while the field holds
food" is a provable statement.

One might expect a tick's successful eats never to exceed its starting
basket. The code does not guarantee this. A forager earlier in the agent
order may put a gathered unit into the basket, and a later villager may eat
it in the same tick.
- `Ticks.EatsCanOutrunStartingBasket` gives a concrete tick of six
  villagers in which two units are eaten from a basket that started with one.
- `Ticks.NextTick` proves the bound that does hold: the tick's eats are at
  most the starting basket plus what the tick gathered.

## Model

| member | source | states |
|---|---|---|
| Agents.AfterBaseline | gatherers_village.py:14-15 | baseline keeps a clamped state clamped, raises hunger by exactly 1 below 100 and keeps it at 100, and leaves energy alone |
| Agents.AfterForage | gatherers_village.py:17-19 | forage keeps a clamped state clamped; energy drops by exactly 12, or to 0 when below 12; hunger rises by exactly 5, or to 100 when that would pass 100 |
| Agents.AfterRest | gatherers_village.py:21-23 | rest keeps a clamped state clamped; energy rises by exactly 20 and hunger by exactly 2, each to 100 when the raise would pass 100 |
| Agents.AfterEat | gatherers_village.py:25-27 | eat keeps a clamped state clamped; hunger drops by exactly 30, or to 0 when below 30; energy rises by exactly 5, or to 100 when that would pass 100 |
| Agents.Agent.constructor | gatherers_village.py:8-12 | a new villager keeps the given name and starts sated (hunger 0) and fully rested (energy 100) |
| Agents.Agent.Baseline | gatherers_village.py:14-15 | the in-place update leaves the villager in the state AfterBaseline gives and touches no other object |
| Agents.Agent.Forage | gatherers_village.py:17-19 | the in-place update leaves the villager in the state AfterForage gives and touches no other object |
| Agents.Agent.Rest | gatherers_village.py:21-23 | the in-place update leaves the villager in the state AfterRest gives and touches no other object |
| Agents.Agent.Eat | gatherers_village.py:25-27 | the in-place update leaves the villager in the state AfterEat gives and touches no other object |
| Policy.ScarceAt | gatherers_village.py:33 | the scarcity threshold is max(1, N // 2): 1 when N < 2, and otherwise the t with 2t <= N < 2t + 2 |
| Policy.Decide | gatherers_village.py:30-37 | no villager decides to eat from a basket that is empty at decision time |
| Policy.DecideRules | gatherers_village.py:30-37 | eat exactly when hunger >= 70 and the basket holds food; rest exactly when neither earlier rule fires and energy < 30; forage exactly in the remaining cases; a forager always has energy >= 25 |
| Policy.Decisions | gatherers_village.py:57 | one decision per villager, in order, each taken against the same basket value; with an empty basket nobody decides to eat |
| Policy.CountForagers | gatherers_village.py:58 | the forager count never exceeds the number of villagers |
| Policy.CountForagersExtremes | gatherers_village.py:58 | the count is 0 exactly when nobody forages, and equals the list length exactly when everybody forages |
| Policy.CountForagersIsMultiplicity | gatherers_village.py:58 | the count equals the number of occurrences of forage in the action list |
| Policy.ForageProbability | gatherers_village.py:59 | p is 0 with no foragers and 0.2 with one; with foragers it lies in [0.2, 0.9]; it is 0.2 + 0.15 * (foragers - 1) while that stays within 0.9, and exactly 0.9 from there on |
| Policy.ForageProbabilityMonotone | gatherers_village.py:59 | more foragers never lower the success probability |
| Policy.CapBindsAtSixForagers | gatherers_village.py:59 | five foragers get 0.8; six would reach 0.95, so they get exactly the cap 0.9 |
| Ticks.BaselineAll | gatherers_village.py:55-56 | every villager's meters are replaced by their baseline, in order, and clamped meters stay clamped |
| Ticks.Act | gatherers_village.py:61-73 | one villager's action never changes how many villagers there are |
| Ticks.ActFacts | gatherers_village.py:61-73 | only the acting villager's meters change, by that action's update; an eat on an empty basket changes nothing; a successful eat takes one unit and counts it; a forager pays the forage cost even on an empty field, consumes one draw exactly when the field holds food, and gathers one unit (basket + 1, field - 1, gathered + 1) exactly when that draw against p succeeds; basket + field + eaten and field + gathered are conserved; basket and field stay non-negative |
| Ticks.ActUpTo | gatherers_village.py:60-73 | running the actions in agent order never changes how many villagers there are |
| Ticks.ActUpToFacts | gatherers_village.py:60-73 | after the first i actions the remaining villagers are untouched, meters stay clamped, both conservation laws hold, basket and field stay non-negative, eats never exceed the starting basket plus what was gathered, at most one draw is used per forager, and an empty field yields no draw and no gather |
| Ticks.NextTick | gatherers_village.py:54-73 | a tick keeps the state well formed; basket_end = basket_start + gathered - eaten and field_end = field_start - gathered; the tick gathers at most the starting field; eats are at most the starting basket plus what was gathered; at most one draw per villager; an empty field means no draw and no gather |
| Ticks.NextTickDrawsPerForager | gatherers_village.py:57-73 | a tick consumes at most one draw per villager who decided to forage |
| Ticks.NoEatHungerRises | gatherers_village.py:60-69 | when nobody eats, no action lowers any villager's hunger |
| Ticks.BarrenTick | gatherers_village.py:54-73 | with an empty basket and an empty field a tick keeps both empty, eats, gathers and draws nothing, and raises every villager's hunger by at least 1 (up to 100) |
| Ticks.EatsCanOutrunStartingBasket | gatherers_village.py:57-73 | in a concrete tick of six villagers starting with one unit in the basket, a forager gathers a second unit and two villagers eat both |
| Days.StarvingCount | gatherers_village.py:76 | the warning count is between 0 and N; it is 0 exactly when nobody has hunger >= 95, and N exactly when everybody does |
| Days.StarvingCountMonotone | gatherers_village.py:76 | if no villager's hunger falls, the warning count does not fall |
| Days.HungerSum | gatherers_village.py:74 | with clamped meters the hunger total lies in [0, 100 * N] |
| Days.EnergySum | gatherers_village.py:75 | with clamped meters the energy total lies in [0, 100 * N] |
| Days.TicksUpTo | gatherers_village.py:54-73 | a run of ticks keeps the state well formed, conserves basket + field + eaten and field + gathered, never lowers the counters, and leaves the field, the gathered count and the draw count unchanged when the field is empty |
| Days.RunDay | gatherers_village.py:51-81 | the day's report carries the day number and the final basket; basket_end = basket_start + gathered - eaten, counted from zero that day; the field after the day is field_start - gathered + regen with no cap; warnings, hunger and energy totals are read from the final meters; all counts are non-negative, gathered is at most the starting field, and the totals lie in [0, 100 * N] |
| Days.DaysUpTo | gatherers_village.py:51-81 | a run of d days gives exactly d reports numbered 1 to d in order, each with 0 to N warnings and non-negative basket, gathered and eaten; the last report's warnings are those of the final state |
| Days.BarrenTicks | gatherers_village.py:54-73 | a village with an empty basket and an empty field stays so through any number of ticks, and nothing is eaten, gathered or drawn |
| Days.BarrenHungerGrows | gatherers_village.py:54-73 | in such a village t ticks raise every villager's hunger by at least t, up to 100 |
| Days.BarrenDay | gatherers_village.py:51-81 | one day without regrowth leaves a village with empty basket and field in that state, uses no draw, and reports an empty basket and nothing gathered or eaten |
| Days.BarrenDays | gatherers_village.py:51-81 | with no regrowth such a village stays so day after day, and every report shows an empty basket and nothing gathered or eaten |
| Days.BarrenDayHunger | gatherers_village.py:51-81 | one such day raises every villager's hunger by at least the ticks per day, up to 100 |
| Days.BarrenDaysHunger | gatherers_village.py:51-81 | after d such days every villager's hunger is at least its start raised by d times the ticks per day, up to 100 |
| Days.BarrenVillageStarves | gatherers_village.py:76 | once such a village has run at least 95 ticks, every villager is a starvation warning in every later report |
| Simulation.InitialPhase | gatherers_village.py:41-49 | the run starts with six sated, rested villagers, basket 3, field 40, zero counters, no draw used, and a well-formed state |
| Simulation.Village.constructor | gatherers_village.py:41-49 | creates six new, distinct villagers named A0 to A5, with the starting basket and field, in the initial state |
| Simulation.Village.BaselineEveryone | gatherers_village.py:55-56 | the in-place baseline loop leaves exactly the meters that BaselineAll gives, and the pools unchanged |
| Simulation.Village.DecideEveryone | gatherers_village.py:57 | the decision list is built in full, in agent order, against the current basket, before anything changes |
| Simulation.Village.ActOne | gatherers_village.py:61-73 | one villager's turn updates the objects and pools to exactly what Act gives |
| Simulation.Village.ActEveryone | gatherers_village.py:60-73 | the action loop leaves exactly the state that ActUpTo gives for the whole list |
| Simulation.Village.Tick | gatherers_village.py:54-73 | one tick of the loops leaves exactly the state NextTick gives, and keeps the village valid |
| Simulation.Village.TakeReport | gatherers_village.py:74-80 | the report holds the basket, the day's counters, the hunger and energy totals, and the count of villagers at hunger >= 95 |
| Simulation.Village.RunTicks | gatherers_village.py:54 | the day's tick loop leaves exactly the state TicksUpTo gives |
| Simulation.Village.Day | gatherers_village.py:51-81 | one day of the loops produces exactly the state and the report that RunDay gives |
| Simulation.Simulate | gatherers_village.py:40-81 | the reports are exactly those of DaysUpTo from the initial state, so they are determined by the inputs and the draws; there is one per day, numbered 1 to days, each with 0 to 6 warnings and non-negative basket, gathered and eaten |

## Left out

- The random generator and its seed. `random.random() < p` is the oracle `coin(k, p)`, so the model holds for every sequence of draws. Reproducing a run for seed 0 is not modelled.
- Floating point. `p` is an exact real, so `0.2 + 0.15 * 5` is exactly 0.95. The source's binary floating point may differ from this in the last bit. That would matter only for a draw that falls between the floating-point `p` and the exact `p`.
- The printed line. The report keeps the integer totals of hunger and energy. It does not divide them by N or round them to one decimal, and nothing is printed.
- Simulation.Simulate: `days` and `ticks_per_day` are required natural-number parameters. The source's defaults (10 days of 24 ticks) are not modelled. A negative argument makes the source's `range` empty, which is the same as 0. The model does not take negative arguments.
- Simulation.Village.constructor: the agent names are modelled, but no property depends on them.
- `analysis.py` and `app.py`: audio feature extraction, file discovery and HTTP endpoints. They are not part of this model.
- The `__main__` entry point: seeding and calling `simulate` with the defaults.

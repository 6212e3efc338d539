# E-waste pipeline simulation, modelled and verified in Dafny

The simulation in `agent.py` moves units of electronic waste through three
stages. Collection agents take from the model's global pool `total_waste`.
Sorting agents drain the collectors. Recycling agents drain the sorters. Every
agent then moves to a random neighbouring cell of a bounded grid.

Each call of `EWasteModel.step` does the following:
- logs a header;
- stops the run when the step budget is used up or the pool is empty;
- regenerates 5 to 10 units while the pool holds more than 5;
- activates every agent once, in a shuffled order;
- increments the step counter.

This project models that core twice and proves the two agree.

- **Value level.** `Spec` (spec.dfy) writes the model as a `World` value. Each
  agent step, scheduler pass and model step is a function of the world before.
  `Grid` (grid.dfy) gives the Moore neighbourhood. `Transfer` (transfer.dfy)
  gives the amount one draw moves.
- **Imperative level.** `Engine` (engine.dfy) writes the same objects the source
  has. An `Agent` class has a mutable counter and cell. An `EWasteModel` class
  has the pool, step counter, running flag, log and scheduler's agent list.
  - Each method is proved to leave `Abs()`, the model read as a value, equal to
    the matching `Spec` function of the state before.
  - `EWasteModel` also keeps an invariant: nothing is negative, every agent is
    on the grid, and all the waste in the system equals 100 plus what
    regeneration brought in.
- **Properties.** `Laws` (laws.dfy) proves the one-step properties: ranges of
  each transfer, conservation, non-negativity, drain-to-zero, the stop check,
  gated regeneration and construction. `Runs` (runs.dfy) proves the properties
  of any sequence of steps: conservation against the regeneration draws, the
  step counter, at most `max_steps` working steps, and stopped staying stopped.

How the model is put together:
- **Randomness is a parameter.** Each `random.randint(1, 5)` of a collector is a
  draw `r` in [1, 5]. A sorter's or recycler's `random.randint(1, min(c, 5))`
  is written `min(r, min(c, 5))` with `r` in [1, 5]. `Transfer.PullOutcomes`
  proves that the amount moved then ranges over exactly what the source can
  move: the whole pool when it holds at most 5, and otherwise 1 to 5.
- The regeneration draw is an argument in [5, 10]. The placement draws are
  argument sequences `xs`, `ys` of in-bounds coordinates.
- `random.choice` over the neighbours is `choice % |neighbours|`.
- The scheduler's shuffle is an argument `order`, required to be a permutation
  of the agent positions. One `Activation` per position carries that
  activation's draws.
- **One agent class.** The three Python agent classes become one `Agent` class
  whose `kind` selects the step. Its one counter, `waste`, stands for
  `collected_waste`, `sorted_waste` or `recycled_waste`.
- **The log** is a sequence of `Event` values with the numbers each message
  carries, not the message text.

Where the code and the design description of the system differ, the model
follows the code:
- A sorter (recycler) visits the collectors (sorters) through
  `self.model.schedule.agents`. That is the scheduler's list in the order agents
  were added, not the shuffled activation order. `Spec.PullVisit` and
  `Engine.Agent.Pull` iterate in that insertion order.
- `EWasteModel.step` logs the step header and the starting total before it
  checks whether to stop. A call that stops therefore also logs those two lines.
- Calling `step` on a stopped model is not rejected. It logs the header and stop
  lines again and changes nothing else (`Runs.StoppedRunFrozen`).

## Model

| member | source | states |
|---|---|---|
| `Grid.Around` | agent.py:27 | the list holds exactly the eight cells touching the given cell, before clipping to the grid |
| `Grid.Clip` | agent.py:27 | a cell is kept exactly when it was in the list and lies on the grid (the non-torus clipping) |
| `Grid.Neighborhood` | agent.py:27 | a cell is in the result exactly when it is one of the eight cells touching the agent's cell and lies on the grid (no wrap-around, centre excluded) |
| `Grid.NeighborhoodNonEmpty` | agent.py:27-28 | on any grid larger than one cell, every on-grid cell has at least one neighbour, so `random.choice` always has a candidate |
| `Grid.SingleCellHasNoNeighbour` | agent.py:27-28 | on a 1 x 1 grid the neighbour list is empty, which is the case where `random.choice` fails |
| `Transfer.CollectAmount` | agent.py:18-20 | a collector's take is between 1 and min(pool, 5), and is the whole pool when the pool holds at most 5 |
| `Transfer.PullAmount` | agent.py:40-42 | a sorter's or recycler's take from one peer is between 1 and min(count, 5), and is the whole count when it is at most 5 |
| `Transfer.CollectIsPull` | agent.py:18-20 | the collector's clamp-after-draw computes the same amount as the sorter's and recycler's rule for every pool and draw |
| `Transfer.PullOutcomes` | agent.py:40-42 | over all draws in [1, 5], the amounts a transfer can move are exactly the whole pool when it is at most 5, and otherwise exactly 1 to 5 |
| `Spec.CollectSpec` | agent.py:17-23 | the collector's transfer keeps every agent's id, class and cell |
| `Spec.Eligible` | agent.py:39 | a peer the sorter's (line 39) or recycler's (line 61) test accepts is never the receiving agent itself |
| `Spec.PullAt` | agent.py:39-67 | one iteration of the sorter's loop (lines 39-45) or the recycler's (lines 61-67) keeps every agent's id, class and cell |
| `Spec.PullVisit` | agent.py:38-67 | the whole loop over the scheduler's list, the sorter's (lines 38-45) or the recycler's (lines 60-67), keeps every agent's id, class and cell |
| `Spec.MoveSpec` | agent.py:26-29 | only the moving agent's cell changes, it stays on the grid, and ids and classes are kept |
| `Spec.ActivateSpec` | agent.py:16-73 | an agent's step (transfer, then move) keeps ids and classes and leaves every agent on the grid |
| `Spec.ScheduleFrom` | agent.py:143 | a scheduler pass keeps ids and classes and leaves every agent on the grid |
| `Spec.StopLines` | agent.py:129-133 | the "max steps" line is logged exactly when current_step >= max_steps, the "all processed" line exactly when total_waste <= 0, nothing else is logged, and some line is logged exactly when the stop condition `Spec.StopNow` of line 129 holds |
| `Spec.RegenAmount` | agent.py:138-140 | regeneration adds the draw (5 to 10) when the pool holds more than 5, and adds nothing otherwise |
| `Spec.Regenerated` | agent.py:126-141 | on a step that gets past the stop check: the pool grows by exactly `Spec.RegenAmount`. The log gains the header and the starting total, then a "new waste" line exactly when waste was added. Agents, step counter, flag, grid and budget are unchanged |
| `Spec.Added` | agent.py:129-140 | a step that stops adds nothing, and any step adds between 0 and 10 units |
| `Spec.StepSpec` | agent.py:125-149 | a model step keeps grid, budget, ids and classes, and leaves every agent on the grid |
| `Spec.MetricsOf` | agent.py:104-121 | the four series add up to all the waste in the system, and "Remaining Waste" is the pool |
| `Spec.KindAt` | agent.py:86-102 | the agent created with id i + 1 is a collector exactly when that id lies in 1..nc, a sorter exactly when it lies in nc+1..nc+ns, and a recycler exactly when it is above nc+ns, the three `range` loops |
| `Spec.InitAgent` | agent.py:86-102 | a created agent has an id of at least 1, an empty counter and the drawn cell, and its class is the one whose id range holds its id |
| `Spec.InitWorld` | agent.py:77-102 | the new model holds nc + ns + nr agents, a pool of 100, step 0, running, an empty log, and nothing negative or off the grid |
| `Laws.CollectFacts` | agent.py:17-23 | only the pool, this collector's counter and the log change. Pool plus counter is unchanged. A non-empty pool loses 1 to min(pool, 5) units, all of them if at most 5. An empty pool means no change at all. Exactly one `Collected` entry is logged |
| `Laws.CollectPreserves` | agent.py:21-22 | the collector's transfer conserves all the waste in the system and keeps pool and counters non-negative |
| `Laws.PullAtFacts` | agent.py:39-45 | an eligible peer is drained by one draw into the receiver, and no other agent changes. A peer that is not eligible changes nothing |
| `Laws.PullAtPreserves` | agent.py:43-44 | one iteration conserves the system's waste, and the upstream stage's sum plus the receiver's counter |
| `Laws.PullVisitDrains` | agent.py:38-44 | the loop drains every upstream peer holding waste by 1 to min(count, 5), all of it when at most 5. Every other agent keeps its counter. The receiver only gains. Pool, step counter and flag are untouched. The log only grows |
| `Laws.PullVisitConserves` | agent.py:38-44 | the loop conserves the upstream stage's sum plus the receiver's counter, and all the waste in the system |
| `Laws.PullVisitPreserves` | agent.py:38-44 | the loop keeps every counter non-negative |
| `Laws.MoveFacts` | agent.py:26-29 | a move changes only this agent's cell, to an adjacent on-grid cell |
| `Laws.MovePreserves` | agent.py:26-29 | a move conserves the waste in the system and keeps the invariant |
| `Laws.ActivateKeeps` | agent.py:16-73 | an agent's step leaves step counter and flag alone, never raises the pool, keeps it non-negative and only appends to the log |
| `Laws.ActivatePreserves` | agent.py:16-73 | an agent's step conserves the waste in the system and keeps the invariant |
| `Laws.ScheduleKeeps` | agent.py:143 | a scheduler pass leaves step counter and flag alone, never raises the pool, keeps it non-negative and only appends to the log |
| `Laws.SchedulePreserves` | agent.py:143 | a scheduler pass conserves the waste in the system and keeps the invariant |
| `Laws.StepPreserves` | agent.py:125-149 | a model step changes the waste in the system by exactly the regeneration it performed, and keeps everything non-negative and on the grid |
| `Laws.StopIsFinal` | agent.py:126-136 | a stopping step clears `running`. It logs only the header, the starting total and the stop lines, and changes nothing else. Afterwards the stop condition still holds |
| `Laws.StepAdvances` | agent.py:149 | a step that gets past the stop check increments current_step by exactly 1 and leaves the flag alone |
| `Laws.RegenGated` | agent.py:138-143 | after a working step the pool is at most its start plus the regeneration amount. When the pool started at 5 or less, it does not grow |
| `Laws.CollectorEmptiesSmallPool` | agent.py:19-20 | a collector facing a pool of at most 5 units empties it |
| `Laws.ScheduleEmptiesSmallPool` | agent.py:143 | a scheduler pass over a pool of at most 5 units, with a collector still to come, ends with the pool empty |
| `Laws.SmallPoolEmptied` | agent.py:138-143 | a working step starting with at most 5 units, in a model with a collector, ends with the pool empty, so the next step stops |
| `Laws.SumKindUpdate` | agent.py:106-120 | replacing one agent changes a `DataCollector` per-class sum by exactly the difference of the two agents' contributions |
| `Laws.SumKindNonNegative` | agent.py:106-120 | a per-class sum is never negative when no counter is |
| `Laws.SumKindZero` | agent.py:106-120 | a per-class sum is 0 when every counter is 0 |
| `Laws.InitRoster` | agent.py:86-102 | agent i gets id i + 1. Collectors take ids 1..nc, sorters nc+1..nc+ns, recyclers the rest. Ids are distinct. Every counter starts at 0 on the drawn cell. The metrics start at 0, 0, 0, 100 |
| `Laws.MetricsNonNegative` | agent.py:104-121 | while the invariant holds, none of the four series is negative |
| `Runs.Run` | agent.py:125-149 | any number of steps keeps grid, budget, ids and classes, and leaves every agent on the grid |
| `Runs.RunConserves` | agent.py:138-143 | over any run, the waste in the system is its start value plus the regeneration draws, and nothing goes negative |
| `Runs.RegenSumBounds` | agent.py:138-140 | regeneration brings in at least 0 and at most 10 units per step that got past the stop check |
| `Runs.RunCountsSteps` | agent.py:149 | current_step advances by exactly the number of steps that got past the stop check |
| `Runs.StepBudget` | agent.py:129 | a working step uses one unit of the remaining budget max_steps - current_step, and a stopping step uses none |
| `Runs.ActiveStepsBounded` | agent.py:129-149 | at most max_steps - current_step steps of any run perform regeneration and activate the agents |
| `Runs.StoppedRunFrozen` | agent.py:129-136 | once the stop condition holds, later steps keep pool, agents and step counter, regenerate nothing and leave `running` false |
| `Runs.RunStops` | agent.py:129-134 | a run with more steps than the remaining budget ends with `running` false |
| `Runs.FromStart` | agent.py:125-149 | from step 0, any run conserves its waste against the regeneration draws, keeps the invariant, never passes max_steps, and is stopped after more than the budget of calls |
| `Runs.FromInit` | agent.py:82-83 | from a freshly built model, all the waste in the system is always 100 plus the regeneration draws so far. Nothing goes negative. current_step never passes max_steps. After max_steps + 1 calls the model has stopped |
| `Runs.LoneCollectorTakesAll` | agent.py:17-22 | a lone collector facing at most 5 units collects all of them in a working step |
| `Runs.LoneCollector` | agent.py:125-149 | one collector, a pool of 3, budget 5: step 1 regenerates nothing, and the collector ends with exactly 3 and the pool with 0. Step 2 stops at once with no counter changed |
| `Engine.Agent.constructor` | agent.py:12-14 | a new agent has the given id, class and cell and an empty counter |
| `Engine.Agent.Collect` | agent.py:17-23 | the in-place collector transfer leaves the model equal to `Spec.CollectSpec` of the state before |
| `Engine.Agent.Pull` | agent.py:38-67 | the in-place loop over the scheduler's list, the sorter's (lines 38-45) or the recycler's (lines 60-67), which decrements peers' counters, leaves the model equal to `Spec.PullVisit` of the state before |
| `Engine.Agent.PullFrom` | agent.py:39-67 | one iteration of that loop (lines 39-45 or 61-67) leaves the model equal to `Spec.PullAt` of the state before |
| `Engine.Agent.RandomMove` | agent.py:26-29 | the move leaves the model equal to `Spec.MoveSpec` of the state before |
| `Engine.Agent.Step` | agent.py:16-68 | the step of a collector (lines 16-24), a sorter (lines 37-46) or a recycler (lines 59-68) leaves the model equal to `Spec.ActivateSpec` of the state before |
| `Engine.EWasteModel.constructor` | agent.py:77-102 | the three creation loops build exactly `Spec.InitWorld` and establish the model invariant with 100 units introduced. Every agent object is new, so the caller may go on to step the model |
| `Engine.EWasteModel.Step` | agent.py:125-149 | a step keeps the model invariant, leaves the model equal to `Spec.StepSpec` of the state before, and records the regeneration as introduced waste |
| `Engine.EWasteModel.Advance` | agent.py:138-149 | the part after the stop check leaves the model equal to `Spec.StepSpec` of the state before the step |
| `Engine.EWasteModel.LogHeader` | agent.py:126-127 | appends the step header and the starting total, and nothing else changes |
| `Engine.EWasteModel.Halt` | agent.py:130-134 | appends the stop lines and clears `running`, and nothing else changes |
| `Engine.EWasteModel.Regenerate` | agent.py:138-141 | adds the draw and logs it when the pool holds more than 5. Otherwise nothing changes |
| `Engine.EWasteModel.ScheduleStep` | agent.py:143 | activating the agents in the shuffled order leaves the model equal to `Spec.ScheduleFrom` of the state before |
| `Engine.EWasteModel.Finish` | agent.py:145-149 | appends the summary and separator lines and increments current_step, and nothing else changes |

## Left out

- The visualisation and server (agent.py:152-213) only read state to draw it and serve it over the network.
- `print` of the log (agent.py:135, agent.py:148) is console output.
- The log's message text is not modelled. Each entry is an `Event` with the numbers the message carries.
- `random.randint`, `random.choice` and the scheduler's shuffle become arguments, each constrained to the range the source draws from. No random number generator is modelled.
- The Mesa library is not part of this model.
  - `MultiGrid` is reduced to each agent's own cell: `place_agent` and `move_agent` only set that cell. The grid's per-cell occupancy lists are not kept.
  - Of `get_neighborhood`, only Moore, no-centre, no-wrap behaviour is written out, as `Grid.Neighborhood`.
  - `RandomActivation`'s own step and time counters are not kept.
  - The scheduler's agent list is assumed to keep insertion order.
- `DataCollector` storage (agent.py:144) is not modelled. `Spec.MetricsOf` gives the four values it would record.
- A 1 x 1 grid with agents is excluded. There `random.choice` gets an empty list and raises. `Spec.ActivateSpec`, `Spec.StepSpec` and the engine's step methods require the grid to have more than one cell whenever there are agents. `Grid.SingleCellHasNoNeighbour` shows the empty neighbour list.
- Agent counts are natural numbers. Python's behaviour for a negative count is not modelled: that count's own loop creates no agent, and the later loops still run with shifted ids (agent.py:92, agent.py:98). For example, -2 collectors and 3 sorters give sorters with ids -1, 0 and 1.
- Grid sizes for which `randint(0, width - 1)` would raise are excluded. The placement arguments must lie on the grid, so such a model cannot be built with agents.
- The Python agent classes' `unique_id` and `model` back-references from Mesa's `Agent` base class are kept only as the agent's id. The model is passed explicitly to each agent method.

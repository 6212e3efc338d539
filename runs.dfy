/** Runs: the model stepped again and again, one StepInput per call of
    EWasteModel.step. The properties here are the ones about a whole run:
    what is introduced is all there is, the step counter counts the steps
    that did work, at most max_steps of them do, and a stopped model stays
    stopped. */
module Runs {
  import opened Transfer
  import opened Spec
  import opened Laws

  /** Every input of the run is valid for a model with n agents (a step never
      changes the number of agents). */
  predicate RunOk(ins: seq<StepInput>, n: nat) {
    forall j :: 0 <= j < |ins| ==> InputOk(ins[j], n)
  }

  /** The model after one step per input, in order. */
  function Run(w: World, ins: seq<StepInput>): (v: World)
    requires Placed(w) && Movable(w) && RunOk(ins, |w.agents|)
    decreases |ins|
    ensures SameSetup(w, v) && Placed(v)
  {
    if ins == [] then w
    else Run(StepSpec(w, ins[0]), ins[1..])
  }

  /** The waste the run's regeneration draws bring in. */
  function RegenSum(w: World, ins: seq<StepInput>): int
    requires Placed(w) && Movable(w) && RunOk(ins, |w.agents|)
    decreases |ins|
  {
    if ins == [] then 0
    else Added(w, ins[0]) + RegenSum(StepSpec(w, ins[0]), ins[1..])
  }

  /** How many of the run's steps got past the stop check. */
  function ActiveSteps(w: World, ins: seq<StepInput>): nat
    requires Placed(w) && Movable(w) && RunOk(ins, |w.agents|)
    decreases |ins|
  {
    if ins == [] then 0
    else (if StopNow(w) then 0 else 1) + ActiveSteps(StepSpec(w, ins[0]), ins[1..])
  }

  /** The steps left before the step budget is used up. */
  function Budget(w: World): nat {
    if w.step < w.maxSteps then w.maxSteps - w.step else 0
  }

  /** Over any run, the waste in the system is what it started with plus what
      regeneration brought in, and nothing ever goes negative. */
  lemma {:induction false} RunConserves(w: World, ins: seq<StepInput>)
    requires Placed(w) && Movable(w) && RunOk(ins, |w.agents|)
    decreases |ins|
    ensures Total(Run(w, ins)) == Total(w) + RegenSum(w, ins)
    ensures Inv(w) ==> Inv(Run(w, ins))
  {
    if ins != [] {
      StepPreserves(w, ins[0]);
      RunConserves(StepSpec(w, ins[0]), ins[1..]);
    }
  }

  /** Regeneration brings in at most 10 units per step that got past the stop
      check, and never takes any away. */
  lemma {:induction false} RegenSumBounds(w: World, ins: seq<StepInput>)
    requires Placed(w) && Movable(w) && RunOk(ins, |w.agents|)
    decreases |ins|
    ensures 0 <= RegenSum(w, ins) <= RegenMax * ActiveSteps(w, ins)
  {
    if ins != [] {
      RegenSumBounds(StepSpec(w, ins[0]), ins[1..]);
    }
  }

  /** The step counter advances by exactly the number of steps that got past
      the stop check. */
  lemma {:induction false} RunCountsSteps(w: World, ins: seq<StepInput>)
    requires Placed(w) && Movable(w) && RunOk(ins, |w.agents|)
    decreases |ins|
    ensures Run(w, ins).step == w.step + ActiveSteps(w, ins)
  {
    if ins != [] {
      if StopNow(w) {
        StopIsFinal(w, ins[0]);
      } else {
        StepAdvances(w, ins[0]);
      }
      RunCountsSteps(StepSpec(w, ins[0]), ins[1..]);
    }
  }

  /** One step uses one unit of the budget if it gets past the stop check and
      none if it stops. */
  lemma StepBudget(w: World, input: StepInput)
    requires Placed(w) && Movable(w) && InputOk(input, |w.agents|)
    ensures StopNow(w) ==> Budget(StepSpec(w, input)) == Budget(w)
    ensures !StopNow(w) ==> Budget(w) > 0 && Budget(StepSpec(w, input)) == Budget(w) - 1
  {
    if StopNow(w) {
      StopIsFinal(w, input);
    } else {
      StepAdvances(w, input);
    }
  }

  /** At most max_steps - current_step of the steps of any run perform
      regeneration and activate the agents. */
  lemma {:induction false} ActiveStepsBounded(w: World, ins: seq<StepInput>)
    requires Placed(w) && Movable(w) && RunOk(ins, |w.agents|)
    decreases |ins|
    ensures ActiveSteps(w, ins) <= Budget(w)
  {
    if ins != [] {
      StepBudget(w, ins[0]);
      ActiveStepsBounded(StepSpec(w, ins[0]), ins[1..]);
    }
  }

  /** Once the stop condition holds it holds for good: every later step only
      clears the flag and logs, so the pool, the agents and the step counter
      stay as they are and no regeneration happens. */
  lemma {:induction false} StoppedRunFrozen(w: World, ins: seq<StepInput>)
    requires Placed(w) && Movable(w) && RunOk(ins, |w.agents|)
    requires StopNow(w)
    decreases |ins|
    ensures var v := Run(w, ins);
      && v.total == w.total && v.agents == w.agents && v.step == w.step
      && (ins != [] ==> !v.running)
      && RegenSum(w, ins) == 0 && ActiveSteps(w, ins) == 0
  {
    if ins != [] {
      StopIsFinal(w, ins[0]);
      StoppedRunFrozen(StepSpec(w, ins[0]), ins[1..]);
    }
  }

  /** A run with more steps than the budget ends stopped. */
  lemma {:induction false} RunStops(w: World, ins: seq<StepInput>)
    requires Placed(w) && Movable(w) && RunOk(ins, |w.agents|)
    requires |ins| > Budget(w)
    decreases |ins|
    ensures !Run(w, ins).running
  {
    if StopNow(w) {
      StoppedRunFrozen(w, ins);
    } else {
      StepBudget(w, ins[0]);
      RunStops(StepSpec(w, ins[0]), ins[1..]);
    }
  }

  /** From a model with the step counter at 0, holding `start` units in all:
      the waste in the system is always `start` plus the regeneration draws so
      far, nothing goes negative, the step counter never passes max_steps, and
      after max_steps + 1 calls of step the model has stopped. */
  lemma FromStart(w: World, ins: seq<StepInput>)
    requires Inv(w) && Movable(w) && RunOk(ins, |w.agents|) && w.step == 0
    ensures var v := Run(w, ins);
      && Total(v) == Total(w) + RegenSum(w, ins)
      && Inv(v)
      && v.step <= Budget(w)
      && (|ins| > Budget(w) ==> !v.running)
  {
    RunConserves(w, ins);
    RunCountsSteps(w, ins);
    ActiveStepsBounded(w, ins);
    if |ins| > Budget(w) {
      RunStops(w, ins);
    }
  }

  /** The same from a freshly built model, which holds 100 units. */
  lemma FromInit(width: int, height: int, numCollectors: nat, numSorters: nat, numRecyclers: nat,
                 maxSteps: int, xs: seq<int>, ys: seq<int>, ins: seq<StepInput>)
    requires PlacementOk(xs, ys, numCollectors + numSorters + numRecyclers, width, height)
    requires numCollectors + numSorters + numRecyclers == 0 || width > 1 || height > 1
    requires RunOk(ins, numCollectors + numSorters + numRecyclers)
    ensures var w := InitWorld(width, height, numCollectors, numSorters, numRecyclers, maxSteps, xs, ys);
      var v := Run(w, ins);
      && Total(v) == InitialWaste + RegenSum(w, ins)
      && Inv(v)
      && v.step <= Budget(w)
      && (|ins| > Budget(w) ==> !v.running)
  {
    var w := InitWorld(width, height, numCollectors, numSorters, numRecyclers, maxSteps, xs, ys);
    assert Total(w) == InitialWaste by {
      InitRoster(width, height, numCollectors, numSorters, numRecyclers, maxSteps, xs, ys);
    }
    FromStart(w, ins);
  }

  lemma SumKindSingle(s: seq<AgentState>, k: Kind)
    requires |s| == 1
    ensures SumKind(s, k) == Share(s[0], k)
  {
    assert s[1..] == [];
  }

  /** A lone collector facing at most 5 units takes all of them in a step
      that gets past the stop check. */
  lemma LoneCollectorTakesAll(w: World, input: StepInput)
    requires Placed(w) && Movable(w) && InputOk(input, |w.agents|)
    requires |w.agents| == 1 && w.agents[0].kind == Collector
    requires !StopNow(w) && w.total <= RegenThreshold
    ensures var v := StepSpec(w, input);
      v.total == 0 && v.agents[0].waste == w.agents[0].waste + w.total
  {
    var v := StepSpec(w, input);
    SmallPoolEmptied(w, input, 0);
    StepPreserves(w, input);
    forall k: Kind ensures SumKind(v.agents, k) == Share(v.agents[0], k) && SumKind(w.agents, k) == Share(w.agents[0], k) {
      SumKindSingle(v.agents, k);
      SumKindSingle(w.agents, k);
    }
  }

  /** One collector alone on a 2 x 2 grid, 3 units in the pool, budget 5: the
      first step regenerates nothing and the collector takes all 3 units; the
      second step stops at once and changes no counter. */
  lemma LoneCollector(w: World, first: StepInput, second: StepInput)
    requires w.width == 2 && w.height == 2 && w.maxSteps == 5
    requires w.total == 3 && w.step == 0 && w.running && Placed(w)
    requires |w.agents| == 1 && w.agents[0].kind == Collector && w.agents[0].waste == 0
    requires InputOk(first, 1) && InputOk(second, 1)
    ensures var v := StepSpec(w, first);
      && v.total == 0 && v.agents[0].waste == 3 && v.step == 1 && v.running
      && var u := StepSpec(v, second);
         !u.running && u.total == 0 && u.agents == v.agents && u.step == 1
  {
    var v := StepSpec(w, first);
    LoneCollectorTakesAll(w, first);
    StepAdvances(w, first);
    StopIsFinal(v, second);
  }
}

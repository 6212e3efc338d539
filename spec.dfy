/** The simulation as values: the state of the whole model (`World`) and, as
    functions of it, the effect of each agent's step, of one scheduler pass and
    of one model step. The classes in module Engine are proved to compute
    exactly these functions; the properties are proved about them in modules
    Laws and Runs. */
module Spec {
  import opened Grid
  import opened Transfer

  /** The three agent classes of the pipeline: collection, sorting, recycling. */
  datatype Kind = Collector | Sorter | Recycler

  /** One entry of the model's log, with the numbers the message carries. */
  datatype Event =
    | StepHeader(number: int)                           // "--- Step n ---"
    | StartTotal(total: int)                            // "Total Waste at Start: t"
    | MaxStepsReached
    | AllProcessed
    | NewWaste(amount: int)
    | Collected(collector: int, amount: int)
    | Sorted(sorter: int, amount: int, collector: int)
    | Recycled(recycler: int, amount: int, sorter: int)
    | Summary(total: int)                               // "Summary: Total Waste Remaining = t"
    | Separator

  /** An agent: its id, its class, its one counter (collected_waste,
      sorted_waste or recycled_waste, by class) and its cell. */
  datatype AgentState = AgentState(id: int, kind: Kind, waste: int, pos: Pos)

  /** The model: grid size, step budget, the global pool total_waste, the step
      counter, the running flag, the scheduler's agents in insertion order, and
      the log. */
  datatype World = World(width: int, height: int, maxSteps: int,
                         total: int, step: int, running: bool,
                         agents: seq<AgentState>, log: seq<Event>)

  /** The random values one agent activation consumes: the collector's draw,
      one draw per scheduler position for a sorter or recycler (only those at
      an eligible peer are used), and the pick among the neighbouring cells. */
  datatype Activation = Activation(collect: int, pulls: seq<int>, choice: nat)

  /** The random values one model step consumes: the regeneration draw, the
      shuffled activation order and one Activation per position in it. */
  datatype StepInput = StepInput(newWaste: int, order: seq<nat>, acts: seq<Activation>)

  /** The four series the data collector records. */
  datatype Metrics = Metrics(collected: int, sorted: int, recycled: int, remaining: int)

  const InitialWaste := 100
  /** Regeneration happens only while the pool is above this. */
  const RegenThreshold := 5
  const RegenMin := 5
  const RegenMax := 10

  /** The stage a sorter or recycler drains. */
  function Upstream(k: Kind): (u: Kind)
    requires k != Collector
    ensures u != k
  {
    if k == Sorter then Collector else Sorter
  }

  function PullEvent(receiver: AgentState, amount: int, source: AgentState): Event
    requires receiver.kind != Collector
  {
    if receiver.kind == Sorter then Sorted(receiver.id, amount, source.id)
    else Recycled(receiver.id, amount, source.id)
  }

  /** What agent a adds to the per-kind sum for k. */
  function Share(a: AgentState, k: Kind): int {
    if a.kind == k then a.waste else 0
  }

  /** Sum of the counters of the agents of kind k. */
  function SumKind(s: seq<AgentState>, k: Kind): int
  {
    if s == [] then 0 else Share(s[0], k) + SumKind(s[1..], k)
  }

  /** All the waste in the system: the pool plus every agent's counter. */
  function Total(w: World): int {
    w.total + SumKind(w.agents, Collector) + SumKind(w.agents, Sorter) + SumKind(w.agents, Recycler)
  }

  predicate Placed(w: World) {
    forall i :: 0 <= i < |w.agents| ==> InBounds(w.agents[i].pos, w.width, w.height)
  }

  /** Nothing is negative and every agent is on the grid. */
  predicate Inv(w: World) {
    && w.total >= 0
    && Placed(w)
    && forall i :: 0 <= i < |w.agents| ==> w.agents[i].waste >= 0
  }

  /** The grid leaves every agent a neighbouring cell (not a 1 x 1 grid). */
  predicate Movable(w: World) {
    |w.agents| == 0 || w.width > 1 || w.height > 1
  }

  /** v has w's grid, budget and agents (same ids, same classes, same order). */
  predicate SameSetup(w: World, v: World) {
    && v.width == w.width && v.height == w.height && v.maxSteps == w.maxSteps
    && |v.agents| == |w.agents|
    && forall j :: 0 <= j < |w.agents| ==>
         v.agents[j].id == w.agents[j].id && v.agents[j].kind == w.agents[j].kind
  }

  /** A pool that went from `before` to `after` in one transfer: it lost
      between 1 and min(before, Cap) units, and all of them if it held at most
      Cap. */
  predicate Drained(before: int, after: int) {
    && 1 <= before - after <= Min(before, Cap)
    && (before <= Cap ==> after == 0)
  }

  /** v has w's agents on the same cells. */
  predicate SamePlaces(w: World, v: World) {
    && |v.agents| == |w.agents|
    && forall j :: 0 <= j < |w.agents| ==> v.agents[j].pos == w.agents[j].pos
  }

  /** CollectionAgent.step without the move: take from the global pool. */
  function CollectSpec(w: World, i: nat, r: int): (v: World)
    requires i < |w.agents| && w.agents[i].kind == Collector && IsDraw(r)
    ensures SameSetup(w, v) && SamePlaces(w, v)
  {
    if w.total > 0 then
      var a := w.agents[i];
      var collect := CollectAmount(w.total, r);
      w.(total := w.total - collect,
         agents := w.agents[i := a.(waste := a.waste + collect)],
         log := w.log + [Collected(a.id, collect)])
    else w
  }

  /** Agent j is a peer that agent self drains during its step. */
  predicate Eligible(w: World, self: nat, j: nat)
    requires self < |w.agents| && w.agents[self].kind != Collector && j < |w.agents|
    ensures Eligible(w, self, j) ==> j != self
  {
    w.agents[j].kind == Upstream(w.agents[self].kind) && w.agents[j].waste > 0
  }

  /** One iteration of the loop of SortingAgent.step / RecyclingAgent.step: the
      agent at scheduler position k, if it is an upstream peer holding waste,
      hands part of it to agent self. */
  function PullAt(w: World, self: nat, pulls: seq<int>, k: nat): (v: World)
    requires self < |w.agents| && w.agents[self].kind != Collector
    requires k < |w.agents| && |pulls| == |w.agents| && IsDraw(pulls[k])
    ensures SameSetup(w, v) && SamePlaces(w, v)
  {
    var src := w.agents[k];
    if Eligible(w, self, k) then
      var amount := PullAmount(src.waste, pulls[k]);
      var a := w.agents[self := w.agents[self].(waste := w.agents[self].waste + amount)];
      w.(agents := a[k := src.(waste := src.waste - amount)],
         log := w.log + [PullEvent(w.agents[self], amount, src)])
    else w
  }

  predicate DrawsOk(pulls: seq<int>, n: nat) {
    |pulls| == n && forall j :: 0 <= j < n ==> IsDraw(pulls[j])
  }

  /** The loop of SortingAgent.step / RecyclingAgent.step from scheduler
      position k on: every upstream peer holding waste is drained by one draw. */
  function PullVisit(w: World, self: nat, pulls: seq<int>, k: nat): (v: World)
    requires self < |w.agents| && w.agents[self].kind != Collector
    requires DrawsOk(pulls, |w.agents|)
    decreases |w.agents| - k
    ensures SameSetup(w, v) && SamePlaces(w, v)
  {
    if k >= |w.agents| then w
    else PullVisit(PullAt(w, self, pulls, k), self, pulls, k + 1)
  }

  /** random_move: the agent moves to one of its neighbouring cells, the one
      `choice` picks. */
  function MoveSpec(w: World, i: nat, choice: nat): (v: World)
    requires i < |w.agents| && InBounds(w.agents[i].pos, w.width, w.height)
    requires w.width > 1 || w.height > 1
    ensures SameSetup(w, v)
    ensures forall j :: 0 <= j < |w.agents| && j != i ==> v.agents[j].pos == w.agents[j].pos
    ensures InBounds(v.agents[i].pos, w.width, w.height)
  {
    var moves := Neighborhood(w.agents[i].pos, w.width, w.height);
    NeighborhoodNonEmpty(w.agents[i].pos, w.width, w.height);
    var p := moves[choice % |moves|];
    assert p in moves;
    w.(agents := w.agents[i := w.agents[i].(pos := p)])
  }

  predicate ActivationOk(a: Activation, n: nat) {
    IsDraw(a.collect) && DrawsOk(a.pulls, n)
  }

  /** The step of agent i: its transfer, then its move. */
  function ActivateSpec(w: World, i: nat, act: Activation): (v: World)
    requires i < |w.agents| && Placed(w) && Movable(w) && ActivationOk(act, |w.agents|)
    ensures SameSetup(w, v) && Placed(v)
  {
    var moved :=
      if w.agents[i].kind == Collector then CollectSpec(w, i, act.collect)
      else PullVisit(w, i, act.pulls, 0);
    MoveSpec(moved, i, act.choice)
  }

  /** An order naming agents below n, with one activation per position. */
  predicate ScheduleOk(order: seq<nat>, acts: seq<Activation>, n: nat) {
    && |acts| == |order|
    && (forall j :: 0 <= j < |order| ==> order[j] < n)
    && (forall j :: 0 <= j < |acts| ==> ActivationOk(acts[j], n))
  }

  /** The scheduler pass from position j of the order on: each agent named by
      the order steps, one after another. */
  function ScheduleFrom(w: World, order: seq<nat>, acts: seq<Activation>, j: nat): (v: World)
    requires Placed(w) && Movable(w) && ScheduleOk(order, acts, |w.agents|)
    decreases |order| - j
    ensures SameSetup(w, v) && Placed(v)
  {
    if j >= |order| then w
    else ScheduleFrom(ActivateSpec(w, order[j], acts[j]), order, acts, j + 1)
  }

  /** The stop condition checked at the start of a step. */
  predicate StopNow(w: World) {
    w.step >= w.maxSteps || w.total <= 0
  }

  /** The log lines naming which stop conditions held. */
  function StopLines(w: World): (r: seq<Event>)
    ensures (MaxStepsReached in r) <==> w.step >= w.maxSteps
    ensures (AllProcessed in r) <==> w.total <= 0
    ensures forall e :: e in r ==> e == MaxStepsReached || e == AllProcessed
    ensures r != [] <==> StopNow(w)
  {
    (if w.step >= w.maxSteps then [MaxStepsReached] else []) +
    (if w.total <= 0 then [AllProcessed] else [])
  }

  /** What regeneration adds to a pool of `total` units, given the draw. */
  function RegenAmount(total: int, newWaste: int): (added: int)
    requires RegenMin <= newWaste <= RegenMax
    ensures total > RegenThreshold ==> added == newWaste && RegenMin <= added <= RegenMax
    ensures total <= RegenThreshold ==> added == 0
  {
    if total > RegenThreshold then newWaste else 0
  }

  /** Each index below n occurs exactly once. */
  predicate IsPermutation(order: seq<nat>, n: nat) {
    && |order| == n
    && (forall j :: 0 <= j < n ==> order[j] < n)
    && (forall j, k :: 0 <= j < k < n ==> order[j] != order[k])
    && (forall i :: 0 <= i < n ==> i in order)
  }

  predicate InputOk(input: StepInput, n: nat) {
    && RegenMin <= input.newWaste <= RegenMax
    && IsPermutation(input.order, n)
    && |input.acts| == n
    && forall j :: 0 <= j < n ==> ActivationOk(input.acts[j], n)
  }

  /** The waste a model step brings into the system: the regeneration
      amount, unless the step stops at once. */
  function Added(w: World, input: StepInput): (added: int)
    requires RegenMin <= input.newWaste <= RegenMax
    ensures StopNow(w) ==> added == 0
    ensures 0 <= added <= RegenMax
  {
    if StopNow(w) then 0 else RegenAmount(w.total, input.newWaste)
  }

  /** The first part of EWasteModel.step: the header lines, then the gated
      regeneration. */
  function Regenerated(w: World, input: StepInput): (v: World)
    requires RegenMin <= input.newWaste <= RegenMax
    ensures v.total == w.total + RegenAmount(w.total, input.newWaste)
    ensures v.log == w.log + [StepHeader(w.step + 1), StartTotal(w.total)]
                     + (if RegenAmount(w.total, input.newWaste) > 0 then [NewWaste(input.newWaste)] else [])
    ensures v.agents == w.agents && v.step == w.step && v.running == w.running
    ensures v.width == w.width && v.height == w.height && v.maxSteps == w.maxSteps
  {
    var header := w.(log := w.log + [StepHeader(w.step + 1), StartTotal(w.total)]);
    if w.total > RegenThreshold
    then header.(total := w.total + input.newWaste, log := header.log + [NewWaste(input.newWaste)])
    else header
  }

  /** EWasteModel.step. */
  function StepSpec(w: World, input: StepInput): (v: World)
    requires Placed(w) && Movable(w) && InputOk(input, |w.agents|)
    ensures SameSetup(w, v) && Placed(v)
  {
    if StopNow(w) then
      w.(running := false,
         log := w.log + [StepHeader(w.step + 1), StartTotal(w.total)] + StopLines(w))
    else
      var scheduled := ScheduleFrom(Regenerated(w, input), input.order, input.acts, 0);
      scheduled.(step := w.step + 1,
                 log := scheduled.log + [Summary(scheduled.total), Separator])
  }

  /** The data collector's four series: per-kind sums and the pool. */
  function MetricsOf(w: World): (m: Metrics)
    ensures m.collected + m.sorted + m.recycled + m.remaining == Total(w)
    ensures m.remaining == w.total
  {
    Metrics(SumKind(w.agents, Collector), SumKind(w.agents, Sorter),
            SumKind(w.agents, Recycler), w.total)
  }

  /** The class of the agent created i-th: collectors, then sorters, then
      recyclers. */
  function KindAt(i: nat, numCollectors: nat, numSorters: nat): (k: Kind)
    ensures k == Collector <==> 1 <= i + 1 <= numCollectors
    ensures k == Sorter <==> numCollectors + 1 <= i + 1 <= numCollectors + numSorters
    ensures k == Recycler <==> numCollectors + numSorters + 1 <= i + 1
  {
    if i < numCollectors then Collector
    else if i < numCollectors + numSorters then Sorter
    else Recycler
  }

  predicate PlacementOk(xs: seq<int>, ys: seq<int>, n: nat, width: int, height: int) {
    && |xs| == n && |ys| == n
    && forall i :: 0 <= i < n ==> InBounds((xs[i], ys[i]), width, height)
  }

  /** The agent created i-th: id i + 1, an empty counter, at the drawn cell. */
  function InitAgent(i: nat, numCollectors: nat, numSorters: nat, xs: seq<int>, ys: seq<int>): (a: AgentState)
    requires i < |xs| && i < |ys|
    ensures a.id >= 1 && a.waste == 0 && a.pos == (xs[i], ys[i])
    ensures a.kind == Collector <==> a.id <= numCollectors
    ensures a.kind == Sorter <==> numCollectors < a.id <= numCollectors + numSorters
    ensures a.kind == Recycler <==> numCollectors + numSorters < a.id
  {
    AgentState(i + 1, KindAt(i, numCollectors, numSorters), 0, (xs[i], ys[i]))
  }

  /** The model right after EWasteModel.__init__. */
  function InitWorld(width: int, height: int, numCollectors: nat, numSorters: nat, numRecyclers: nat,
                     maxSteps: int, xs: seq<int>, ys: seq<int>): (w: World)
    requires PlacementOk(xs, ys, numCollectors + numSorters + numRecyclers, width, height)
    ensures |w.agents| == numCollectors + numSorters + numRecyclers
    ensures Inv(w) && w.total == InitialWaste && w.step == 0 && w.running && w.log == []
    ensures w.width == width && w.height == height && w.maxSteps == maxSteps
  {
    var n := numCollectors + numSorters + numRecyclers;
    World(width, height, maxSteps, InitialWaste, 0, true,
          seq(n, i requires 0 <= i < n => InitAgent(i, numCollectors, numSorters, xs, ys)), [])
  }
}

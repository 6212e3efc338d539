/** The simulation as the source writes it: agents and the model are objects
    whose fields the steps update in place. Each method is proved to leave the
    model in exactly the state the matching function of module Spec computes
    from the state before, so everything proved in Laws and Runs holds of these
    objects. */
module Engine {
  import opened Grid
  import opened Transfer
  import opened Spec
  import opened Laws

  /** An agent. The three Python classes differ only in which counter they
      keep and in their step; here `kind` says which, and `waste` is the one
      counter (collected_waste, sorted_waste or recycled_waste). */
  class Agent {
    const id: int
    const kind: Kind
    var waste: int
    var pos: Pos

    constructor (id: int, kind: Kind, pos: Pos)
      ensures this.id == id && this.kind == kind && this.pos == pos && waste == 0
    {
      this.id := id;
      this.kind := kind;
      this.pos := pos;
      waste := 0;
    }

    function State(): AgentState
      reads this
    {
      AgentState(id, kind, waste, pos)
    }

    /** CollectionAgent.step without the move. `r` is the value of
        randint(1, 5). */
    method Collect(m: EWasteModel, ghost i: nat, r: int)
      requires m.Wired() && i < |m.agents| && m.agents[i] == this
      requires kind == Collector && IsDraw(r)
      modifies this`waste, m`totalWaste, m`log
      ensures m.Abs() == CollectSpec(old(m.Abs()), i, r)
    {
      ghost var w := m.Abs();
      assert w.agents[i] == State();
      if m.totalWaste > 0 {
        var collect := Min(r, m.totalWaste);
        if m.totalWaste <= Cap {
          collect := m.totalWaste;
        }
        waste := waste + collect;
        StatesUpdate(m.agents, w.agents, i);
        m.totalWaste := m.totalWaste - collect;
        m.log := m.log + [Collected(id, collect)];
      }
    }

    /** The loop of SortingAgent.step / RecyclingAgent.step: every upstream
        peer in the scheduler's list that holds waste hands over one draw's
        worth. `pulls[k]` feeds the draw at list position k. */
    method Pull(m: EWasteModel, ghost self: nat, pulls: seq<int>)
      requires m.Wired() && self < |m.agents| && m.agents[self] == this
      requires kind != Collector && DrawsOk(pulls, |m.agents|)
      modifies m.agents, m`log
      ensures m.Abs() == PullVisit(old(m.Abs()), self, pulls, 0)
    {
      ghost var goal := PullVisit(m.Abs(), self, pulls, 0);
      var k := 0;
      while k < |m.agents|
        invariant k <= |m.agents|
        invariant PullVisit(m.Abs(), self, pulls, k) == goal
      {
        PullFrom(m, self, pulls, k);
        k := k + 1;
      }
    }

    /** One iteration of that loop: the agent at list position k, if it is an
        upstream peer holding waste, hands over one draw's worth. */
    method PullFrom(m: EWasteModel, ghost self: nat, pulls: seq<int>, k: nat)
      requires m.Wired() && self < |m.agents| && m.agents[self] == this
      requires kind != Collector && k < |m.agents| && DrawsOk(pulls, |m.agents|)
      modifies m.agents, m`log
      ensures m.Abs() == PullAt(old(m.Abs()), self, pulls, k)
    {
      ghost var w := m.Abs();
      assert w == old(m.Abs());
      var agent := m.agents[k];
      assert w.agents[k] == agent.State() && w.agents[self] == State();
      if agent.kind == Upstream(kind) && agent.waste > 0 {
        var amount := Min(pulls[k], Min(agent.waste, Cap));
        if agent.waste <= Cap {
          amount := agent.waste;
        }
        assert amount == PullAmount(w.agents[k].waste, pulls[k]);
        ghost var me := w.agents[self].(waste := w.agents[self].waste + amount);
        ghost var src := w.agents[k].(waste := w.agents[k].waste - amount);
        waste := waste + amount;
        StatesUpdate(m.agents, w.agents, self);
        assert State() == me;
        assert States(m.agents) == w.agents[self := me];
        agent.waste := agent.waste - amount;
        StatesUpdate(m.agents, w.agents[self := me], k);
        assert agent.State() == src;
        assert States(m.agents) == w.agents[self := me][k := src];
        m.log := m.log + [PullEvent(State(), amount, agent.State())];
        assert m.log == w.log + [PullEvent(w.agents[self], amount, w.agents[k])];
        PullAtEligible(w, self, pulls, k, amount);
        assert m.Abs() == w.(agents := w.agents[self := me][k := src],
                             log := w.log + [PullEvent(w.agents[self], amount, w.agents[k])]);
      } else {
        assert !Eligible(w, self, k);
        assert m.Abs() == PullAt(w, self, pulls, k);
      }
    }

    /** random_move: go to the neighbouring cell `choice` picks. */
    method RandomMove(m: EWasteModel, ghost i: nat, choice: nat)
      requires m.Wired() && i < |m.agents| && m.agents[i] == this
      requires InBounds(pos, m.width, m.height) && (m.width > 1 || m.height > 1)
      modifies this`pos
      ensures m.Abs() == MoveSpec(old(m.Abs()), i, choice)
    {
      var possibleMoves := Neighborhood(pos, m.width, m.height);
      NeighborhoodNonEmpty(pos, m.width, m.height);
      pos := possibleMoves[choice % |possibleMoves|];
      StatesUpdate(m.agents, old(States(m.agents)), i);
    }

    /** The agent's step: its transfer, then its move. */
    method Step(m: EWasteModel, ghost i: nat, act: Activation)
      requires m.Wired() && i < |m.agents| && m.agents[i] == this
      requires Placed(m.Abs()) && Movable(m.Abs()) && ActivationOk(act, |m.agents|)
      modifies m.agents, m`totalWaste, m`log
      ensures m.Abs() == ActivateSpec(old(m.Abs()), i, act)
    {
      if kind == Collector {
        Collect(m, i, act.collect);
      } else {
        Pull(m, i, act.pulls);
      }
      RandomMove(m, i, act.choice);
    }
  }

  /** The states of a list of agents. */
  function States(s: seq<Agent>): (r: seq<AgentState>)
    reads s
    ensures |r| == |s| && forall i :: 0 <= i < |s| ==> r[i] == s[i].State()
  {
    seq(|s|, i requires 0 <= i < |s| reads s => s[i].State())
  }

  /** When every agent of s but the one at position k still has the state
      recorded in `before`, the states are `before` with entry k replaced. */
  lemma StatesUpdate(s: seq<Agent>, before: seq<AgentState>, k: nat)
    requires k < |s| == |before|
    requires forall j :: 0 <= j < |s| && j != k ==> s[j].State() == before[j]
    ensures States(s) == before[k := s[k].State()]
  {
  }

  /** One activation of the scheduler pass, split off the rest of it. */
  lemma ScheduleUnfold(w: World, order: seq<nat>, acts: seq<Activation>, j: nat)
    requires Placed(w) && Movable(w) && ScheduleOk(order, acts, |w.agents|) && j < |order|
    ensures var v := ActivateSpec(w, order[j], acts[j]);
      && Placed(v) && Movable(v) && ScheduleOk(order, acts, |v.agents|)
      && ScheduleFrom(w, order, acts, j) == ScheduleFrom(v, order, acts, j + 1)
  {
  }

  /** PullAt when the peer is eligible, written as the two updates and the
      log entry. */
  lemma PullAtEligible(w: World, self: nat, pulls: seq<int>, k: nat, amount: int)
    requires self < |w.agents| && w.agents[self].kind != Collector
    requires k < |w.agents| && |pulls| == |w.agents| && IsDraw(pulls[k])
    requires Eligible(w, self, k) && amount == PullAmount(w.agents[k].waste, pulls[k])
    ensures PullAt(w, self, pulls, k)
      == w.(agents := w.agents[self := w.agents[self].(waste := w.agents[self].waste + amount)]
                              [k := w.agents[k].(waste := w.agents[k].waste - amount)],
            log := w.log + [PullEvent(w.agents[self], amount, w.agents[k])])
  {
  }

  /** How the phases of EWasteModel.step compose into StepSpec: the header,
      then the stop lines. */
  lemma StoppedStep(w: World, input: StepInput, header: World, v: World)
    requires Placed(w) && Movable(w) && InputOk(input, |w.agents|) && StopNow(w)
    requires header == w.(log := w.log + [StepHeader(w.step + 1), StartTotal(w.total)])
    requires v == header.(running := false, log := header.log + StopLines(header))
    ensures StepSpec(w, input) == v
  {
  }

  /** The header, then the gated regeneration. */
  lemma RegenerationStep(w: World, input: StepInput, header: World, v: World)
    requires RegenMin <= input.newWaste <= RegenMax
    requires header == w.(log := w.log + [StepHeader(w.step + 1), StartTotal(w.total)])
    requires header.total > RegenThreshold ==>
               v == header.(total := header.total + input.newWaste, log := header.log + [NewWaste(input.newWaste)])
    requires header.total <= RegenThreshold ==> v == header
    ensures Regenerated(w, input) == v
    ensures Placed(w) ==> Placed(v)
    ensures Movable(w) ==> Movable(v)
    ensures |v.agents| == |w.agents|
  {
  }

  /** A model step keeps the invariant and adds its regeneration to the waste
      introduced so far. */
  lemma StepKeepsTotal(w: World, input: StepInput, v: World, introduced: int)
    requires Placed(w) && Movable(w) && InputOk(input, |w.agents|)
    requires Inv(w) && Total(w) == introduced && v == StepSpec(w, input)
    ensures Inv(v) && Total(v) == introduced + Added(w, input)
  {
    StepPreserves(w, input);
  }

  /** The scheduler pass on the regenerated model, then the summary lines and
      the step counter. */
  lemma RunningStep(w: World, input: StepInput, scheduled: World, v: World)
    requires Placed(w) && Movable(w) && InputOk(input, |w.agents|) && !StopNow(w)
    requires scheduled == ScheduleFrom(Regenerated(w, input), input.order, input.acts, 0)
    requires v == scheduled.(step := scheduled.step + 1,
                             log := scheduled.log + [Summary(scheduled.total), Separator])
    ensures StepSpec(w, input) == v
  {
    ScheduleKeeps(Regenerated(w, input), input.order, input.acts, 0);
  }

  /** The model: the grid size, the step budget, the global pool, the step
      counter, the running flag, the log, and the scheduler's agents in the
      order they were added. */
  class EWasteModel {
    const width: int
    const height: int
    const maxSteps: int
    var totalWaste: int
    var currentStep: int
    var running: bool
    var log: seq<Event>
    const agents: seq<Agent>
    /** 100 plus every regeneration draw so far. */
    ghost var introduced: int

    /** The model as a value. */
    function Abs(): World
      reads this`totalWaste, this`currentStep, this`running, this`log, agents
    {
      World(width, height, maxSteps, totalWaste, currentStep, running, States(agents), log)
    }

    /** Distinct positions of the scheduler's list hold distinct agents. */
    ghost predicate Wired() {
      forall i, j :: 0 <= i < j < |agents| ==> agents[i] != agents[j]
    }

    /** Nothing is negative, every agent is on the grid, and the waste in the
        system is exactly what was ever introduced. */
    ghost predicate Valid()
      reads this, agents
    {
      Wired() && Inv(Abs()) && Total(Abs()) == introduced
    }

    /** EWasteModel.__init__: collectors, then sorters, then recyclers, with
        ids counting up from 1; agent k is placed at (xs[k], ys[k]), the
        value of the two randint calls for it. */
    constructor (width: int, height: int, numCollectors: nat, numSorters: nat, numRecyclers: nat,
                 maxSteps: int, xs: seq<int>, ys: seq<int>)
      requires PlacementOk(xs, ys, numCollectors + numSorters + numRecyclers, width, height)
      ensures Valid() && introduced == InitialWaste
      ensures Abs() == InitWorld(width, height, numCollectors, numSorters, numRecyclers, maxSteps, xs, ys)
      ensures forall a :: a in agents ==> fresh(a)
    {
      var created: seq<Agent> := [];
      var i := 1;
      while i <= numCollectors
        invariant 1 <= i <= numCollectors + 1 && |created| == i - 1
        invariant forall k :: 0 <= k < |created| ==>
                    created[k].State() == InitAgent(k, numCollectors, numSorters, xs, ys)
        invariant forall k, l :: 0 <= k < l < |created| ==> created[k] != created[l]
        invariant forall a :: a in created ==> fresh(a)
      {
        var collector := new Agent(i, Collector, (xs[i - 1], ys[i - 1]));
        created := created + [collector];
        i := i + 1;
      }
      while i <= numCollectors + numSorters
        invariant numCollectors + 1 <= i <= numCollectors + numSorters + 1 && |created| == i - 1
        invariant forall k :: 0 <= k < |created| ==>
                    created[k].State() == InitAgent(k, numCollectors, numSorters, xs, ys)
        invariant forall k, l :: 0 <= k < l < |created| ==> created[k] != created[l]
        invariant forall a :: a in created ==> fresh(a)
      {
        var sorter := new Agent(i, Sorter, (xs[i - 1], ys[i - 1]));
        created := created + [sorter];
        i := i + 1;
      }
      while i <= numCollectors + numSorters + numRecyclers
        invariant numCollectors + numSorters + 1 <= i <= numCollectors + numSorters + numRecyclers + 1
        invariant |created| == i - 1
        invariant forall k :: 0 <= k < |created| ==>
                    created[k].State() == InitAgent(k, numCollectors, numSorters, xs, ys)
        invariant forall k, l :: 0 <= k < l < |created| ==> created[k] != created[l]
        invariant forall a :: a in created ==> fresh(a)
      {
        var recycler := new Agent(i, Recycler, (xs[i - 1], ys[i - 1]));
        created := created + [recycler];
        i := i + 1;
      }
      this.width := width;
      this.height := height;
      this.maxSteps := maxSteps;
      currentStep := 0;
      totalWaste := InitialWaste;
      running := true;
      log := [];
      agents := created;
      introduced := InitialWaste;
      new;
      InitRoster(width, height, numCollectors, numSorters, numRecyclers, maxSteps, xs, ys);
      assert Abs() == InitWorld(width, height, numCollectors, numSorters, numRecyclers, maxSteps, xs, ys);
    }

    /** EWasteModel.step. `newWaste` is the value of randint(5, 10), `order`
        the scheduler's shuffle and `acts[j]` the random values the j-th
        activation consumes. */
    method Step(newWaste: int, order: seq<nat>, acts: seq<Activation>)
      requires Valid() && Movable(Abs()) && InputOk(StepInput(newWaste, order, acts), |agents|)
      modifies this, agents
      ensures Valid()
      ensures Abs() == StepSpec(old(Abs()), StepInput(newWaste, order, acts))
      ensures introduced == old(introduced) + Added(old(Abs()), StepInput(newWaste, order, acts))
    {
      ghost var input := StepInput(newWaste, order, acts);
      introduced := introduced + Added(Abs(), input);
      ghost var start := Abs();
      assert start == old(Abs());
      LogHeader();
      if currentStep >= maxSteps || totalWaste <= 0 {
        ghost var header := Abs();
        Halt();
        StoppedStep(start, input, header, Abs());
      } else {
        Advance(newWaste, order, acts, start);
      }
      StepKeepsTotal(start, input, Abs(), old(introduced));
    }

    /** The rest of a step that got past the stop check: regeneration, the
        scheduler pass, the summary lines and the step counter. */
    method Advance(newWaste: int, order: seq<nat>, acts: seq<Activation>, ghost start: World)
      requires Wired() && Placed(start) && Movable(start) && !StopNow(start)
      requires InputOk(StepInput(newWaste, order, acts), |start.agents|)
      requires Abs() == start.(log := start.log + [StepHeader(start.step + 1), StartTotal(start.total)])
      modifies agents, this`totalWaste, this`currentStep, this`log
      ensures Abs() == StepSpec(start, StepInput(newWaste, order, acts))
    {
      ghost var input := StepInput(newWaste, order, acts);
      ghost var header := Abs();
      Regenerate(newWaste);
      ghost var regenerated := Abs();
      RegenerationStep(start, input, header, regenerated);
      ScheduleStep(order, acts);
      ghost var scheduled := Abs();
      Finish();
      RunningStep(start, input, scheduled, Abs());
    }

    /** The two lines every call of step logs first. */
    method LogHeader()
      modifies this`log
      ensures var w := old(Abs()); Abs() == w.(log := w.log + [StepHeader(w.step + 1), StartTotal(w.total)])
    {
      log := log + [StepHeader(currentStep + 1), StartTotal(totalWaste)];
    }

    /** The stop branch: the stop lines, then running = False. */
    method Halt()
      modifies this`log, this`running
      ensures var w := old(Abs()); Abs() == w.(running := false, log := w.log + StopLines(w))
    {
      ghost var w := Abs();
      if currentStep >= maxSteps {
        log := log + [MaxStepsReached];
      }
      if totalWaste <= 0 {
        log := log + [AllProcessed];
      }
      running := false;
      assert log == w.log + StopLines(w);
    }

    /** The gated regeneration: a draw from [5, 10] is added while the pool
        holds more than 5 units. */
    method Regenerate(newWaste: int)
      modifies this`totalWaste, this`log
      ensures var w := old(Abs());
        w.total > RegenThreshold ==> Abs() == w.(total := w.total + newWaste, log := w.log + [NewWaste(newWaste)])
      ensures old(Abs()).total <= RegenThreshold ==> Abs() == old(Abs())
    {
      if totalWaste > RegenThreshold {
        totalWaste := totalWaste + newWaste;
        log := log + [NewWaste(newWaste)];
      }
    }

    /** The lines logged after the scheduler pass, and the step counter's
        increment. */
    method Finish()
      modifies this`log, this`currentStep
      ensures var w := old(Abs()); Abs() == w.(step := w.step + 1, log := w.log + [Summary(w.total), Separator])
    {
      log := log + [Summary(totalWaste), Separator];
      currentStep := currentStep + 1;
    }

    /** RandomActivation.step: every agent steps once, in the shuffled
        order. */
    method ScheduleStep(order: seq<nat>, acts: seq<Activation>)
      requires Wired() && Placed(Abs()) && Movable(Abs()) && ScheduleOk(order, acts, |agents|)
      modifies agents, this`totalWaste, this`log
      ensures Abs() == ScheduleFrom(old(Abs()), order, acts, 0)
    {
      ghost var goal := ScheduleFrom(Abs(), order, acts, 0);
      var j := 0;
      while j < |order|
        invariant j <= |order| && Placed(Abs()) && Movable(Abs())
        invariant ScheduleFrom(Abs(), order, acts, j) == goal
      {
        ghost var before := Abs();
        agents[order[j]].Step(this, order[j], acts[j]);
        ScheduleUnfold(before, order, acts, j);
        j := j + 1;
      }
    }
  }
}

/** Properties of one agent step and of one model step: what is conserved,
    what stays non-negative, and how the stop check and regeneration behave. */
module Laws {
  import opened Grid
  import opened Transfer
  import opened Spec

  /** Replacing one agent changes a per-kind sum by the difference of the two
      agents' shares. */
  lemma {:induction false} SumKindUpdate(s: seq<AgentState>, i: nat, a: AgentState, k: Kind)
    requires i < |s|
    ensures SumKind(s[i := a], k) == SumKind(s, k) - Share(s[i], k) + Share(a, k)
  {
    if i == 0 {
      assert s[i := a][1..] == s[1..];
    } else {
      SumKindUpdate(s[1..], i - 1, a, k);
      assert s[i := a][1..] == s[1..][i - 1 := a];
    }
  }

  /** A per-kind sum of counters none of which is negative is not negative. */
  lemma {:induction false} SumKindNonNegative(s: seq<AgentState>, k: Kind)
    requires forall i :: 0 <= i < |s| ==> s[i].waste >= 0
    ensures SumKind(s, k) >= 0
  {
    if s != [] {
      assert forall i :: 0 <= i < |s[1..]| ==> s[1..][i] == s[i + 1];
      SumKindNonNegative(s[1..], k);
    }
  }

  /** A per-kind sum of empty counters is 0. */
  lemma {:induction false} SumKindZero(s: seq<AgentState>, k: Kind)
    requires forall i :: 0 <= i < |s| ==> s[i].waste == 0
    ensures SumKind(s, k) == 0
  {
    if s != [] {
      assert forall i :: 0 <= i < |s[1..]| ==> s[1..][i] == s[i + 1];
      SumKindZero(s[1..], k);
    }
  }

  /** CollectionAgent.step's transfer: only the pool, this collector's count
      and the log change; the pool loses exactly what the collector gains,
      between 1 and min(pool, 5) units and the whole pool when it holds at most
      5; an empty pool means no change at all. */
  lemma CollectFacts(w: World, i: nat, r: int)
    requires i < |w.agents| && w.agents[i].kind == Collector && IsDraw(r)
    ensures var v := CollectSpec(w, i, r);
      && v == w.(total := v.total, log := v.log,
                 agents := w.agents[i := w.agents[i].(waste := v.agents[i].waste)])
      && v.total + v.agents[i].waste == w.total + w.agents[i].waste
      && (w.total <= 0 ==> v == w)
      && (w.total > 0 ==> Drained(w.total, v.total))
      && v.log == if w.total > 0 then w.log + [Collected(w.agents[i].id, w.total - v.total)] else w.log
  {
  }

  /** A collector's transfer conserves the waste in the system and keeps every
      count non-negative. */
  lemma CollectPreserves(w: World, i: nat, r: int)
    requires i < |w.agents| && w.agents[i].kind == Collector && IsDraw(r)
    ensures Total(CollectSpec(w, i, r)) == Total(w)
    ensures Inv(w) ==> Inv(CollectSpec(w, i, r))
  {
    var v := CollectSpec(w, i, r);
    CollectFacts(w, i, r);
    SumKindUpdate(w.agents, i, v.agents[i], Collector);
    SumKindUpdate(w.agents, i, v.agents[i], Sorter);
    SumKindUpdate(w.agents, i, v.agents[i], Recycler);
  }

  /** One iteration of a sorter's or recycler's loop: an eligible peer at
      position k is drained by one draw into agent self, and nothing else but
      the log changes. */
  lemma PullAtFacts(w: World, self: nat, pulls: seq<int>, k: nat)
    requires self < |w.agents| && w.agents[self].kind != Collector
    requires k < |w.agents| && |pulls| == |w.agents| && IsDraw(pulls[k])
    ensures var v := PullAt(w, self, pulls, k);
      && v == w.(agents := v.agents, log := v.log)
      && (forall j :: 0 <= j < |w.agents| && j != k && j != self ==> v.agents[j] == w.agents[j])
      && (!Eligible(w, self, k) ==> v == w)
      && (Eligible(w, self, k) ==>
            && v.agents[k] == w.agents[k].(waste := v.agents[k].waste)
            && v.agents[self] == w.agents[self].(waste := v.agents[self].waste)
            && Drained(w.agents[k].waste, v.agents[k].waste)
            && v.agents[self].waste == w.agents[self].waste + (w.agents[k].waste - v.agents[k].waste))
      && w.log <= v.log
  {
  }

  /** One iteration of a sorter's or recycler's loop conserves the waste in the
      system, and the upstream stage plus the receiving agent together. */
  lemma PullAtPreserves(w: World, self: nat, pulls: seq<int>, k: nat)
    requires self < |w.agents| && w.agents[self].kind != Collector
    requires k < |w.agents| && |pulls| == |w.agents| && IsDraw(pulls[k])
    ensures var v := PullAt(w, self, pulls, k);
      && Total(v) == Total(w)
      && SumKind(v.agents, Upstream(w.agents[self].kind)) + v.agents[self].waste
         == SumKind(w.agents, Upstream(w.agents[self].kind)) + w.agents[self].waste
  {
    var v := PullAt(w, self, pulls, k);
    PullAtFacts(w, self, pulls, k);
    if Eligible(w, self, k) {
      var a := w.agents[self := v.agents[self]];
      assert v.agents == a[k := v.agents[k]];
      forall kind: Kind
        ensures SumKind(v.agents, kind)
                == SumKind(w.agents, kind) - Share(w.agents[k], kind) + Share(v.agents[k], kind)
                   - Share(w.agents[self], kind) + Share(v.agents[self], kind)
      {
        SumKindUpdate(w.agents, self, v.agents[self], kind);
        SumKindUpdate(a, k, v.agents[k], kind);
      }
    }
  }

  /** The transfer loop of SortingAgent.step / RecyclingAgent.step from
      position k on: each upstream peer holding waste at or after k loses
      between 1 and min(count, 5) units, all of them if it held at most 5;
      every other agent but the receiver keeps its count; the receiver never
      loses, and the pool, step counter and flag are untouched. */
  lemma {:induction false} PullVisitDrains(w: World, self: nat, pulls: seq<int>, k: nat)
    requires self < |w.agents| && w.agents[self].kind != Collector
    requires DrawsOk(pulls, |w.agents|)
    decreases |w.agents| - k
    ensures var v := PullVisit(w, self, pulls, k);
      && v == w.(agents := v.agents, log := v.log)
      && (forall j :: 0 <= j < |w.agents| && j != self ==>
            if k <= j && Eligible(w, self, j)
            then Drained(w.agents[j].waste, v.agents[j].waste)
            else v.agents[j].waste == w.agents[j].waste)
      && v.agents[self].waste >= w.agents[self].waste
      && w.log <= v.log
  {
    if k < |w.agents| {
      var u := PullAt(w, self, pulls, k);
      PullAtFacts(w, self, pulls, k);
      PullVisitDrains(u, self, pulls, k + 1);
    }
  }

  /** A sorter's or recycler's whole transfer loop: the upstream stage's sum
      plus the receiver's counter is unchanged, and so is all the waste in the
      system. */
  lemma {:induction false} PullVisitConserves(w: World, self: nat, pulls: seq<int>, k: nat)
    requires self < |w.agents| && w.agents[self].kind != Collector
    requires DrawsOk(pulls, |w.agents|)
    decreases |w.agents| - k
    ensures var v := PullVisit(w, self, pulls, k);
      && Total(v) == Total(w)
      && SumKind(v.agents, Upstream(w.agents[self].kind)) + v.agents[self].waste
         == SumKind(w.agents, Upstream(w.agents[self].kind)) + w.agents[self].waste
  {
    if k < |w.agents| {
      var u := PullAt(w, self, pulls, k);
      PullAtPreserves(w, self, pulls, k);
      PullVisitConserves(u, self, pulls, k + 1);
    }
  }

  /** The transfer loop keeps every count non-negative. */
  lemma PullVisitPreserves(w: World, self: nat, pulls: seq<int>)
    requires self < |w.agents| && w.agents[self].kind != Collector
    requires DrawsOk(pulls, |w.agents|)
    ensures Inv(w) ==> Inv(PullVisit(w, self, pulls, 0))
  {
    PullVisitDrains(w, self, pulls, 0);
  }

  /** random_move: only this agent's cell changes, to a cell adjacent to the
      old one and on the grid. */
  lemma MoveFacts(w: World, i: nat, choice: nat)
    requires i < |w.agents| && InBounds(w.agents[i].pos, w.width, w.height)
    requires w.width > 1 || w.height > 1
    ensures var v := MoveSpec(w, i, choice);
      && v == w.(agents := w.agents[i := w.agents[i].(pos := v.agents[i].pos)])
      && Adjacent(v.agents[i].pos, w.agents[i].pos)
      && InBounds(v.agents[i].pos, w.width, w.height)
  {
    var moves := Neighborhood(w.agents[i].pos, w.width, w.height);
    NeighborhoodNonEmpty(w.agents[i].pos, w.width, w.height);
    assert moves[choice % |moves|] in moves;
  }

  /** Moving changes no count. */
  lemma MovePreserves(w: World, i: nat, choice: nat)
    requires i < |w.agents| && InBounds(w.agents[i].pos, w.width, w.height)
    requires w.width > 1 || w.height > 1
    ensures Total(MoveSpec(w, i, choice)) == Total(w)
    ensures Inv(w) ==> Inv(MoveSpec(w, i, choice))
  {
    var v := MoveSpec(w, i, choice);
    MoveFacts(w, i, choice);
    SumKindUpdate(w.agents, i, v.agents[i], Collector);
    SumKindUpdate(w.agents, i, v.agents[i], Sorter);
    SumKindUpdate(w.agents, i, v.agents[i], Recycler);
  }

  /** What an agent's step keeps: the step counter and the flag; the pool can
      only shrink and stays non-negative; the log only grows. */
  predicate Within(w: World, v: World) {
    && v.step == w.step && v.running == w.running
    && v.total <= w.total && (w.total >= 0 ==> v.total >= 0)
    && w.log <= v.log
  }

  /** An agent's step leaves the step counter and the flag alone, never raises
      the pool, keeps it non-negative, and only appends to the log. */
  lemma ActivateKeeps(w: World, i: nat, act: Activation)
    requires i < |w.agents| && Placed(w) && Movable(w) && ActivationOk(act, |w.agents|)
    ensures Within(w, ActivateSpec(w, i, act))
  {
    if w.agents[i].kind == Collector {
      CollectFacts(w, i, act.collect);
      MoveFacts(CollectSpec(w, i, act.collect), i, act.choice);
    } else {
      PullVisitDrains(w, i, act.pulls, 0);
      MoveFacts(PullVisit(w, i, act.pulls, 0), i, act.choice);
    }
  }

  /** An agent's step conserves the waste in the system and keeps the
      invariant. */
  lemma ActivatePreserves(w: World, i: nat, act: Activation)
    requires i < |w.agents| && Placed(w) && Movable(w) && ActivationOk(act, |w.agents|)
    ensures Total(ActivateSpec(w, i, act)) == Total(w)
    ensures Inv(w) ==> Inv(ActivateSpec(w, i, act))
  {
    if w.agents[i].kind == Collector {
      CollectPreserves(w, i, act.collect);
      MovePreserves(CollectSpec(w, i, act.collect), i, act.choice);
    } else {
      PullVisitConserves(w, i, act.pulls, 0);
      PullVisitPreserves(w, i, act.pulls);
      MovePreserves(PullVisit(w, i, act.pulls, 0), i, act.choice);
    }
  }

  /** A scheduler pass leaves the step counter and the flag alone, never raises
      the pool, keeps it non-negative, and only appends to the log. */
  lemma {:induction false} ScheduleKeeps(w: World, order: seq<nat>, acts: seq<Activation>, j: nat)
    requires Placed(w) && Movable(w) && ScheduleOk(order, acts, |w.agents|)
    decreases |order| - j
    ensures Within(w, ScheduleFrom(w, order, acts, j))
  {
    if j < |order| {
      ActivateKeeps(w, order[j], acts[j]);
      ScheduleKeeps(ActivateSpec(w, order[j], acts[j]), order, acts, j + 1);
    }
  }

  /** A scheduler pass conserves the waste in the system and keeps the
      invariant. */
  lemma {:induction false} SchedulePreserves(w: World, order: seq<nat>, acts: seq<Activation>, j: nat)
    requires Placed(w) && Movable(w) && ScheduleOk(order, acts, |w.agents|)
    decreases |order| - j
    ensures Total(ScheduleFrom(w, order, acts, j)) == Total(w)
    ensures Inv(w) ==> Inv(ScheduleFrom(w, order, acts, j))
  {
    if j < |order| {
      ActivatePreserves(w, order[j], acts[j]);
      SchedulePreserves(ActivateSpec(w, order[j], acts[j]), order, acts, j + 1);
    }
  }

  /** A model step adds exactly the regenerated amount to the waste in the
      system, and keeps every count non-negative and every agent on the grid. */
  lemma StepPreserves(w: World, input: StepInput)
    requires Placed(w) && Movable(w) && InputOk(input, |w.agents|)
    ensures Total(StepSpec(w, input)) == Total(w) + Added(w, input)
    ensures Inv(w) ==> Inv(StepSpec(w, input))
  {
    if !StopNow(w) {
      var regenerated := Regenerated(w, input);
      SchedulePreserves(regenerated, input.order, input.acts, 0);
      assert Total(regenerated) == Total(w) + Added(w, input);
    }
  }

  /** A step that finds the budget spent or the pool empty only logs the
      header, the starting total and the stop reasons, and clears `running`;
      the stop condition still holds afterwards, so the next step stops too. */
  lemma StopIsFinal(w: World, input: StepInput)
    requires Placed(w) && Movable(w) && InputOk(input, |w.agents|)
    requires StopNow(w)
    ensures var v := StepSpec(w, input);
      && v == w.(running := false, log := v.log)
      && v.log == w.log + [StepHeader(w.step + 1), StartTotal(w.total)] + StopLines(w)
      && StopNow(v)
  {
  }

  /** A step that does not stop advances the step counter by exactly one and
      leaves `running` alone. */
  lemma StepAdvances(w: World, input: StepInput)
    requires Placed(w) && Movable(w) && InputOk(input, |w.agents|)
    requires !StopNow(w)
    ensures StepSpec(w, input).step == w.step + 1
    ensures StepSpec(w, input).running == w.running
  {
    ScheduleKeeps(Regenerated(w, input), input.order, input.acts, 0);
  }

  /** Regeneration gating: a running step can raise the pool at most by the
      regenerated amount, so not at all when the pool starts at 5 or less. */
  lemma RegenGated(w: World, input: StepInput)
    requires Placed(w) && Movable(w) && InputOk(input, |w.agents|)
    requires !StopNow(w)
    ensures StepSpec(w, input).total <= w.total + RegenAmount(w.total, input.newWaste)
    ensures w.total <= RegenThreshold ==> StepSpec(w, input).total <= w.total
  {
    ScheduleKeeps(Regenerated(w, input), input.order, input.acts, 0);
  }

  /** A collector activated while the pool holds at most Cap units empties it. */
  lemma CollectorEmptiesSmallPool(w: World, i: nat, act: Activation)
    requires i < |w.agents| && Placed(w) && Movable(w) && ActivationOk(act, |w.agents|)
    requires w.agents[i].kind == Collector && 0 <= w.total <= Cap
    ensures ActivateSpec(w, i, act).total == 0
  {
    CollectFacts(w, i, act.collect);
    MoveFacts(CollectSpec(w, i, act.collect), i, act.choice);
  }

  /** While the pool holds at most Cap units, the first collector activated in
      a pass takes all of it, and nothing refills it during the pass. */
  lemma {:induction false} ScheduleEmptiesSmallPool(w: World, order: seq<nat>, acts: seq<Activation>, j: nat, p: nat)
    requires Placed(w) && Movable(w) && ScheduleOk(order, acts, |w.agents|)
    requires 0 <= w.total <= Cap
    requires j <= p < |order| && w.agents[order[p]].kind == Collector
    decreases p - j
    ensures ScheduleFrom(w, order, acts, j).total == 0
  {
    var u := ActivateSpec(w, order[j], acts[j]);
    ActivateKeeps(w, order[j], acts[j]);
    if w.agents[order[j]].kind == Collector {
      CollectorEmptiesSmallPool(w, order[j], acts[j]);
      ScheduleKeeps(u, order, acts, j + 1);
    } else {
      assert j != p;
      ScheduleEmptiesSmallPool(u, order, acts, j + 1, p);
    }
  }

  /** The drain-to-zero rule at model level: a running step that starts with at
      most 5 units in the pool, in a model with a collector, ends with the pool
      empty, so the next step stops. */
  lemma SmallPoolEmptied(w: World, input: StepInput, c: nat)
    requires Placed(w) && Movable(w) && InputOk(input, |w.agents|)
    requires !StopNow(w) && w.total <= RegenThreshold
    requires c < |w.agents| && w.agents[c].kind == Collector
    ensures StepSpec(w, input).total == 0
    ensures StopNow(StepSpec(w, input))
  {
    assert c in input.order;
    var p :| 0 <= p < |input.order| && input.order[p] == c;
    ScheduleEmptiesSmallPool(Regenerated(w, input), input.order, input.acts, 0, p);
  }

  /** EWasteModel.__init__: agent i gets id i + 1, collectors take ids
      1..nc, sorters nc+1..nc+ns and recyclers the rest; the ids are
      distinct; every agent starts with an empty counter on its drawn cell;
      the data collector's first row is 0, 0, 0 and the initial pool. */
  lemma InitRoster(width: int, height: int, numCollectors: nat, numSorters: nat, numRecyclers: nat,
                   maxSteps: int, xs: seq<int>, ys: seq<int>)
    requires PlacementOk(xs, ys, numCollectors + numSorters + numRecyclers, width, height)
    ensures var w := InitWorld(width, height, numCollectors, numSorters, numRecyclers, maxSteps, xs, ys);
      && (forall i :: 0 <= i < |w.agents| ==>
            && w.agents[i].id == i + 1
            && w.agents[i].waste == 0
            && w.agents[i].pos == (xs[i], ys[i])
            && (w.agents[i].kind == Collector <==> 1 <= w.agents[i].id <= numCollectors)
            && (w.agents[i].kind == Sorter <==> numCollectors < w.agents[i].id <= numCollectors + numSorters)
            && (w.agents[i].kind == Recycler <==> numCollectors + numSorters < w.agents[i].id))
      && (forall i, j :: 0 <= i < j < |w.agents| ==> w.agents[i].id != w.agents[j].id)
      && MetricsOf(w) == Metrics(0, 0, 0, InitialWaste)
      && Total(w) == InitialWaste
  {
    var w := InitWorld(width, height, numCollectors, numSorters, numRecyclers, maxSteps, xs, ys);
    SumKindZero(w.agents, Collector);
    SumKindZero(w.agents, Sorter);
    SumKindZero(w.agents, Recycler);
  }

  /** The data collector's four series are never negative while the
      invariant holds. */
  lemma MetricsNonNegative(w: World)
    requires Inv(w)
    ensures var m := MetricsOf(w);
      m.collected >= 0 && m.sorted >= 0 && m.recycled >= 0 && m.remaining >= 0
  {
    SumKindNonNegative(w.agents, Collector);
    SumKindNonNegative(w.agents, Sorter);
    SumKindNonNegative(w.agents, Recycler);
  }
}

/** Runs built step by step from a new flow, and counting what happens in a run. */
module FlowReach {
  import opened Options
  import opened FlowModel
  import opened FlowTheorems
  import opened FlowLandings
  import opened FlowLandingTheorems

  // ---- Counting ----

  ghost function One(b: bool): nat { if b then 1 else 0 }

  /** How many labels of a run are of one kind, judged in the state each is taken in. */
  ghost function Count(a: Assumptions, w: World, run: seq<Label>, p: (World, Label) -> bool): nat
    requires Legal(a, w, run)
    decreases |run|
  {
    if run == [] then 0 else (if p(w, run[0]) then 1 else 0) + Count(a, Apply(a, w, run[0]), run[1..], p)
  }

  lemma {:induction false} CountConcat(a: Assumptions, w: World, first: seq<Label>, second: seq<Label>, p: (World, Label) -> bool)
    requires Legal(a, w, first) && Legal(a, Run(a, w, first), second)
    ensures Legal(a, w, first + second)
    ensures Count(a, w, first + second, p) == Count(a, w, first, p) + Count(a, Run(a, w, first), second, p)
    decreases |first|
  {
    RunConcat(a, w, first, second);
    if first == [] {
      assert first + second == second;
    } else {
      assert (first + second)[0] == first[0] && (first + second)[1..] == first[1..] + second;
      CountConcat(a, Apply(a, w, first[0]), first[1..], second, p);
    }
  }

  lemma CountOne(a: Assumptions, w: World, run: seq<Label>, l: Label, p: (World, Label) -> bool)
    requires Legal(a, w, run) && Enabled(a, Run(a, w, run), l)
    ensures Legal(a, w, run + [l])
    ensures Count(a, w, run + [l], p) == Count(a, w, run, p) + (if p(Run(a, w, run), l) then 1 else 0)
  {
    assert [l][1..] == [];
    CountConcat(a, w, run, [l], p);
  }

  /** A run without a label takes no step of a kind that only that label is. */
  lemma {:induction false} AbsentCountsNothing(a: Assumptions, w: World, run: seq<Label>, k: Label, p: (World, Label) -> bool)
    requires Legal(a, w, run) && k !in run && forall u, l :: p(u, l) ==> l == k
    ensures Count(a, w, run, p) == 0
    decreases |run|
  {
    if run != [] {
      assert run[0] in run;
      AbsentCountsNothing(a, Apply(a, w, run[0]), run[1..], k, p);
    }
  }

  lemma {:induction false} CountsLess(a: Assumptions, w: World, run: seq<Label>, p: (World, Label) -> bool, q: (World, Label) -> bool)
    requires Legal(a, w, run) && forall u, l :: p(u, l) ==> q(u, l)
    ensures Count(a, w, run, p) <= Count(a, w, run, q)
    decreases |run|
  {
    if run != [] { CountsLess(a, Apply(a, w, run[0]), run[1..], p, q); }
  }

  // ---- From one step to the next ----

  /** Everything before step i is done, it and all after it are untouched, and the next tick is free to act. */
  ghost predicate AtStep(w: World, i: nat) {
    && Due(w) && i <= STEPS && FirstOpen(w.flow) == i
    && (forall j :: i <= j < STEPS ==> w.flow.steps[j] == FRESH)
  }

  lemma NewFlowAtStart(w: World)
    requires Initial(w)
    ensures AtStep(w, 0)
  {
    InitialShape(w);
  }

  /** v is w with step i finished and holding a result. */
  ghost predicate Finished(w: World, v: World, i: nat, result: Option<Result>) {
    && AtStep(w, i) && i < STEPS && AtStep(v, i + 1) && OnlyStep(w, v, i) && v.flow.steps[i].result == result
    && v.chain.orders == w.chain.orders
  }

  lemma FinishedMoves(w: World, v: World, i: nat, result: Option<Result>)
    requires AtStep(w, i) && i < STEPS && OnlyStep(w, v, i) && v.worker.Idle?
    requires v.flow.steps[i].status.Done? && v.flow.steps[i].result == result && v.chain.orders == w.chain.orders
    ensures Finished(w, v, i, result)
  {
    FirstOpenAt(v.flow, i + 1);
  }

  /** The step's transaction is sent, succeeds and is read back. */
  lemma CompleteStep(w: World, i: nat, held: nat, allowance: nat, out: nat) returns (run: seq<Label>)
    requires AtStep(w, i) && i < SHORT && PlanFor(w.flow, i, held, allowance).Some?
    ensures Legal(ALL, w, run) && Quiet(run)
    ensures Finished(w, Run(ALL, w, run), i, Some(ResultFor(i, PlanFor(w.flow, i, held, allowance).value, out)))
  {
    run := LandAndRecord(w, i, held, allowance);
    var run1, w1 := Extend(ALL, w, run, Receipt);
    var run2, w2 := Extend(ALL, w, run1, Settle(out));
    run := run2;
    FinishedMoves(w, w2, i, Some(ResultFor(i, PlanFor(w.flow, i, held, allowance).value, out)));
  }

  lemma SkipStep(w: World, i: nat, held: nat, allowance: nat) returns (run: seq<Label>)
    requires AtStep(w, i) && i < SHORT && PlanFor(w.flow, i, held, allowance).None?
    ensures Legal(ALL, w, run) && Quiet(run)
    ensures Finished(w, Run(ALL, w, run), i, Some(Skipped))
  {
    var run1, w1 := Extend(ALL, w, [], Start);
    PlanStable(w.flow, w1.flow, i, held, allowance);
    var run2, w2 := Extend(ALL, w, run1, Plan(held, allowance));
    run := run2;
    FinishedMoves(w, w2, i, Some(Skipped));
  }

  /** Past chain step i one way or the other, with the manager holding nothing. */
  lemma PassStep(w: World, i: nat, out: nat) returns (run: seq<Label>)
    requires AtStep(w, i) && i < SHORT
    ensures Legal(ALL, w, run) && Quiet(run)
    ensures Finished(w, Run(ALL, w, run), i, Some(
              match PlanFor(w.flow, i, 0, 0)
              case None => Skipped
              case Some(amount) => ResultFor(i, amount, out)))
  {
    if PlanFor(w.flow, i, 0, 0).Some? { run := CompleteStep(w, i, 0, 0, out); } else { run := SkipStep(w, i, 0, 0); }
  }

  lemma ThenQuiet(w: World, first: seq<Label>, second: seq<Label>)
    requires Legal(ALL, w, first) && Legal(ALL, Run(ALL, w, first), second) && Quiet(first) && Quiet(second)
    ensures Legal(ALL, w, first + second) && Quiet(first + second)
    ensures Run(ALL, w, first + second) == Run(ALL, Run(ALL, w, first), second)
  {
    RunConcat(ALL, w, first, second);
  }

  /** To the stake, with `out` MON bought, whatever the ratio. */
  lemma ReachStake(w: World, out: nat) returns (run: seq<Label>)
    requires Initial(w) && MonShare(w.flow) > 0
    ensures Legal(ALL, w, run) && Quiet(run)
    ensures var v := Run(ALL, w, run);
            AtStep(v, STAKE) && v.chain.orders == [] && OutputOf(v.flow, SWAP_MON) == out
  {
    NewFlowAtStart(w);
    var run0 := CompleteStep(w, SWAP_MON, 0, 0, out);
    var u := Run(ALL, w, run0);
    var run1 := PassStep(u, SWAP_AUSD, 1);
    ThenQuiet(w, run0, run1);
    run := run0 + run1;
  }

  /** From behind the stake to the short: the remaining chain steps change no earlier record. */
  lemma PastFunding(w: World) returns (run: seq<Label>)
    requires AtStep(w, FUND)
    ensures Legal(ALL, w, run) && Quiet(run)
    ensures var v := Run(ALL, w, run);
            AtStep(v, SHORT) && v.chain.orders == w.chain.orders && v.flow.steps[STAKE] == w.flow.steps[STAKE]
  {
    var run0 := PassStep(w, FUND, 0);
    var w1 := Run(ALL, w, run0);
    var run1 := PassStep(w1, APPROVE, 0);
    ThenQuiet(w, run0, run1);
    var w2 := Run(ALL, w1, run1);
    var run2 := PassStep(w2, DEPOSIT, 0);
    ThenQuiet(w, run0 + run1, run2);
    run := run0 + run1 + run2;
  }

  /** What was bought is staked and recorded. */
  lemma StakeBought(w: World) returns (run: seq<Label>)
    requires AtStep(w, STAKE) && OutputOf(w.flow, SWAP_MON) > 0
    ensures Legal(ALL, w, run) && Quiet(run)
    ensures Finished(w, Run(ALL, w, run), STAKE, Some(Staked(OutputOf(w.flow, SWAP_MON))))
  {
    run := CompleteStep(w, STAKE, 0, 0, 0);
  }

  /** From the stake to the hedge, with one MON staked. */
  lemma OneMonStaked(w: World) returns (run: seq<Label>)
    requires AtStep(w, STAKE) && OutputOf(w.flow, SWAP_MON) == MON
    ensures Legal(ALL, w, run) && Quiet(run)
    ensures var v := Run(ALL, w, run);
            AtStep(v, SHORT) && v.chain.orders == w.chain.orders && ShortSize(v.flow) == 1
  {
    var run1 := StakeBought(w);
    var w1 := Run(ALL, w, run1);
    var run2 := PastFunding(w1);
    ThenQuiet(w, run1, run2);
    run := run1 + run2;
    assert StakedOf(Run(ALL, w, run).flow) == MON;
  }

  lemma ReachShort(w: World) returns (run: seq<Label>)
    requires Initial(w) && MonShare(w.flow) > 0
    ensures Legal(ALL, w, run) && Quiet(run)
    ensures var v := Run(ALL, w, run);
            AtStep(v, SHORT) && v.chain.orders == [] && ShortSize(v.flow) == 1
  {
    var run0 := ReachStake(w, MON);
    var run1 := OneMonStaked(Run(ALL, w, run0));
    ThenQuiet(w, run0, run1);
    run := run0 + run1;
  }
}

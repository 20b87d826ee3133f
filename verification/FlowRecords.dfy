// A step finished by resolving its transaction after a crash is done and records nothing. Which steps those
// are, and what the later steps, which read the records, make of it.
module FlowRecords {
  import opened Options
  import opened FlowModel
  import opened FlowTheorems
  import opened FlowLandings
  import opened FlowLandingTheorems
  import opened FlowReach
  import opened FlowHedge

  /** The tick that finds step i's transaction on chain and marks the step done. */
  predicate ResolvesStep(w: World, l: Label, i: nat) { l.ResolveOk? && w.worker.Resolving? && w.worker.i == i }

  ghost function Resolving(i: nat): (World, Label) -> bool { (w: World, l: Label) => ResolvesStep(w, l, i) }

  ghost predicate RecordInv(w: World, i: nat, resolved: nat)
    requires WellFormed(w.flow) && i < STEPS
  {
    if w.flow.steps[i].status.Done? then w.flow.steps[i].result.None? <==> resolved > 0 else resolved == 0
  }

  lemma RecordStep(a: Assumptions, w: World, l: Label, i: nat, resolved: nat)
    requires OrderInv(w) && WorkInv(w) && AmountInv(w) && PlanInv(w) && Enabled(a, w, l) && i < STEPS && RecordInv(w, i, resolved)
    ensures WellFormed(Apply(a, w, l).flow)
    ensures RecordInv(Apply(a, w, l), i, resolved + (if Resolving(i)(w, l) then 1 else 0))
  {
    assert StepAmount(w.flow, i);
    if FirstOpen(w.flow) == i {
      RecordStepOn(a, w, l, i, resolved);
    } else {
      OpenStep(a, w, l);
      ResolvingElsewhere(w, l, i);
    }
  }

  lemma ResolvingElsewhere(w: World, l: Label, i: nat)
    requires OrderInv(w) && FirstOpen(w.flow) != i
    ensures !Resolving(i)(w, l)
  {
  }

  lemma RecordStepOn(a: Assumptions, w: World, l: Label, i: nat, resolved: nat)
    requires OrderInv(w) && WorkInv(w) && PlanInv(w) && Enabled(a, w, l) && i < STEPS && StepAmount(w.flow, i) && RecordInv(w, i, resolved)
    requires FirstOpen(w.flow) == i
    ensures WellFormed(Apply(a, w, l).flow)
    ensures RecordInv(Apply(a, w, l), i, resolved + (if Resolving(i)(w, l) then 1 else 0))
  {
    if !l.Settle? && !l.RecordShort? && !l.ResolveOk? {
      RecordsNothing(a, w, l);
      if OfTick(l) || FromOutside(l) { TickFinishesNothing(a, w, l); } else { AttemptSkips(a, w, l); }
    }
  }

  lemma TickFinishesNothing(a: Assumptions, w: World, l: Label)
    requires OrderInv(w) && WorkInv(w) && Enabled(a, w, l) && FirstOpen(w.flow) < STEPS && (OfTick(l) || FromOutside(l)) && !l.ResolveOk?
    ensures var v := Apply(a, w, l); WellFormed(v.flow) && !v.flow.steps[FirstOpen(w.flow)].status.Done?
  {
  }

  /** Short of recording a result, an attempt finishes a step only by skipping it. */
  lemma AttemptSkips(a: Assumptions, w: World, l: Label)
    requires OrderInv(w) && WorkInv(w) && Enabled(a, w, l) && FirstOpen(w.flow) < STEPS && !OfTick(l) && !FromOutside(l) && !l.Settle? && !l.RecordShort?
    ensures var i, v := FirstOpen(w.flow), Apply(a, w, l);
            WellFormed(v.flow) && (v.flow.steps[i].status.Done? ==> v.flow.steps[i].result == Some(Skipped))
  {
  }

  lemma {:induction false} RecordsOverRun(a: Assumptions, w: World, run: seq<Label>, i: nat, resolved: nat)
    requires OrderInv(w) && WorkInv(w) && AmountInv(w) && PlanInv(w) && Legal(a, w, run) && i < STEPS && RecordInv(w, i, resolved)
    ensures WellFormed(Run(a, w, run).flow) && RecordInv(Run(a, w, run), i, resolved + Count(a, w, run, Resolving(i)))
    decreases |run|
  {
    if run != [] {
      RecordStep(a, w, run[0], i, resolved);
      ShapeStep(a, w, run[0]);
      AmountStep(a, w, run[0]);
      RecordsOverRun(a, Apply(a, w, run[0]), run[1..], i, resolved + (if Resolving(i)(w, run[0]) then 1 else 0));
    }
  }

  /** In every run a done step records nothing exactly when it was finished by resolving it after a crash. */
  lemma UnrecordedExactly(a: Assumptions, w: World, run: seq<Label>, i: nat)
    requires Initial(w) && Legal(a, w, run) && i < STEPS
    ensures var f := Run(a, w, run).flow;
            WellFormed(f) && (f.steps[i].status.Done? ==> (f.steps[i].result.None? <==> Count(a, w, run, Resolving(i)) > 0))
  {
    InitialShape(w);
    RecordsOverRun(a, w, run, i, 0);
  }

  // ---- When a step finds nothing to do ----

  /** The steps whose plan depends on the document alone. */
  predicate PlansFromDocument(i: nat) { i == SWAP_MON || i == SWAP_AUSD || i == STAKE || i == FUND }

  ghost predicate HasWork(f: Flow, i: nat)
    requires WellFormed(f) && PlansFromDocument(i)
  {
    PlanFor(f, i, 0, 0).Some?
  }

  /** A step in doubt had something to move, and a done one was skipped exactly if it had not. */
  ghost predicate SkipInv(w: World, i: nat)
    requires WellFormed(w.flow) && PlansFromDocument(i)
  {
    var s := w.flow.steps[i];
    && (s.status.Sending? || s.status.Sent? ==> HasWork(w.flow, i))
    && (s.status.Done? ==> (s.result == Some(Skipped) <==> !HasWork(w.flow, i)))
  }

  lemma SkipStepOn(a: Assumptions, w: World, l: Label, i: nat)
    requires OrderInv(w) && WorkInv(w) && AmountInv(w) && PlanInv(w) && Enabled(a, w, l) && PlansFromDocument(i) && SkipInv(w, i)
    requires FirstOpen(w.flow) == i
    ensures WellFormed(Apply(a, w, l).flow) && SkipInv(Apply(a, w, l), i)
  {
    var v := Apply(a, w, l);
    ShapeStep(a, w, l);
    PlanStable(w.flow, v.flow, i, 0, 0);
    assert StepAmount(w.flow, i);
  }

  lemma SkipKept(a: Assumptions, w: World, l: Label, i: nat)
    requires OrderInv(w) && WorkInv(w) && AmountInv(w) && PlanInv(w) && Enabled(a, w, l) && PlansFromDocument(i) && SkipInv(w, i)
    ensures WellFormed(Apply(a, w, l).flow) && SkipInv(Apply(a, w, l), i)
  {
    if FirstOpen(w.flow) == i {
      SkipStepOn(a, w, l, i);
    } else {
      OpenStep(a, w, l);
      SkipApart(w, Apply(a, w, l), i);
    }
  }

  lemma SkipApart(w: World, v: World, i: nat)
    requires OrderInv(w) && OpenMoves(w, v) && PlansFromDocument(i) && SkipInv(w, i) && FirstOpen(w.flow) != i
    ensures SkipInv(v, i)
  {
    if FirstOpen(w.flow) < i {
      assert Untouched(w.flow.steps[i]);
    } else {
      PlanStable(w.flow, v.flow, i, 0, 0);
    }
  }

  lemma {:induction false} SkipOverRun(a: Assumptions, w: World, run: seq<Label>, i: nat)
    requires OrderInv(w) && WorkInv(w) && AmountInv(w) && PlanInv(w) && Legal(a, w, run) && PlansFromDocument(i) && SkipInv(w, i)
    ensures WellFormed(Run(a, w, run).flow) && SkipInv(Run(a, w, run), i)
    decreases |run|
  {
    if run != [] {
      SkipKept(a, w, run[0], i);
      ShapeStep(a, w, run[0]);
      AmountStep(a, w, run[0]);
      SkipOverRun(a, Apply(a, w, run[0]), run[1..], i);
    }
  }

  /** The swap that a stake or a funding reads its amount from. */
  function SourceOf(i: nat): nat { if i == STAKE then SWAP_MON else SWAP_AUSD }

  /** What the swap was to sell. */
  function Share(f: Flow, swap: nat): int { if swap == SWAP_MON then MonShare(f) else f.usdcIn - MonShare(f) }

  /** The swap was finished without telling of any output. */
  ghost predicate NothingOut(a: Assumptions, w: World, run: seq<Label>, swap: nat)
    requires Legal(a, w, run) && WellFormed(Run(a, w, run).flow) && swap < STEPS
  {
    var f := Run(a, w, run).flow;
    || Count(a, w, run, Resolving(swap)) > 0
    || Share(f, swap) == 0
    || f.steps[swap].result == Some(Swapped(Share(f, swap), 0))
  }

  lemma OutputNone(a: Assumptions, w: World, run: seq<Label>, swap: nat)
    requires Initial(w) && Legal(a, w, run) && (swap == SWAP_MON || swap == SWAP_AUSD)
    ensures var f := Run(a, w, run).flow;
            WellFormed(f) && (f.steps[swap].status.Done? ==> (OutputOf(f, swap) == 0 <==> NothingOut(a, w, run, swap)))
  {
    InitialShape(w);
    UnrecordedExactly(a, w, run, swap);
    SkipOverRun(a, w, run, swap);
    AmountsOverRun(a, w, run);
    assert StepAmount(Run(a, w, run).flow, swap);
  }

  /**
   In every run a done stake or funding was skipped exactly when the swap before it was finished by a resolution
   after a crash, had nothing to sell, or reported an output of zero.
   */
  lemma SkippedExactly(a: Assumptions, w: World, run: seq<Label>, i: nat)
    requires Initial(w) && Legal(a, w, run) && (i == STAKE || i == FUND)
    ensures var f := Run(a, w, run).flow;
            WellFormed(f) && (f.steps[i].status.Done? ==> (f.steps[i].result == Some(Skipped) <==> NothingOut(a, w, run, SourceOf(i))))
  {
    InitialShape(w);
    ShapeKept(a, w, run);
    SkipOverRun(a, w, run, i);
    OutputNone(a, w, run, SourceOf(i));
  }

  // ---- When nothing is hedged ----

  /** An order stands behind a recorded stake, and what the hedge records says whether there is one. */
  ghost predicate HedgeInv(w: World)
    requires WellFormed(w.flow)
  {
    var s := w.flow.steps[SHORT];
    && OffChain(w)
    && (w.chain.orders != [] ==> StakedOf(w.flow) != 0)
    && (w.worker.Ordered? ==> w.chain.orders != [])
    && (s.status.Done? ==> s.result.Some? && (if s.result.value.Shorted? then w.chain.orders != [] else StakedOf(w.flow) == 0))
  }

  lemma StakeKept(a: Assumptions, w: World, l: Label)
    requires OrderInv(w) && WorkInv(w) && AmountInv(w) && Enabled(a, w, l)
    ensures WellFormed(Apply(a, w, l).flow)
    ensures StakedOf(w.flow) != 0 || w.flow.steps[STAKE].status.Done? ==> StakedOf(Apply(a, w, l).flow) == StakedOf(w.flow)
  {
    assert StepAmount(w.flow, STAKE);
    if w.flow.steps[STAKE].status.Done? { StepKeepsDone(a, w, l, STAKE); }
  }

  lemma HedgeKept(a: Assumptions, w: World, l: Label)
    requires OrderInv(w) && WorkInv(w) && AmountInv(w) && Enabled(a, w, l) && HedgeInv(w)
    ensures WellFormed(Apply(a, w, l).flow) && HedgeInv(Apply(a, w, l))
  {
    StakeKept(a, w, l);
    assert StepAmount(w.flow, SHORT);
    assert FirstOpen(w.flow) < SHORT ==> Untouched(w.flow.steps[SHORT]);
    if w.flow.steps[SHORT].status.Done? { StepKeepsDone(a, w, l, SHORT); }
  }

  lemma {:induction false} HedgeOverRun(a: Assumptions, w: World, run: seq<Label>)
    requires OrderInv(w) && WorkInv(w) && AmountInv(w) && PlanInv(w) && HedgeInv(w) && Legal(a, w, run)
    ensures WellFormed(Run(a, w, run).flow) && HedgeInv(Run(a, w, run))
    decreases |run|
  {
    if run != [] {
      HedgeKept(a, w, run[0]);
      ShapeStep(a, w, run[0]);
      AmountStep(a, w, run[0]);
      HedgeOverRun(a, Apply(a, w, run[0]), run[1..]);
    }
  }

  lemma StakedNothing(a: Assumptions, w: World, run: seq<Label>)
    requires Initial(w) && Legal(a, w, run)
    ensures var f := Run(a, w, run).flow;
            WellFormed(f) && (f.steps[SWAP_MON].status.Done? && f.steps[STAKE].status.Done? ==>
              (StakedOf(f) == 0 <==> Count(a, w, run, Resolving(STAKE)) > 0 || NothingOut(a, w, run, SWAP_MON)))
  {
    InitialShape(w);
    AmountsOverRun(a, w, run);
    UnrecordedExactly(a, w, run, STAKE);
    OutputNone(a, w, run, SWAP_MON);
    assert StepAmount(Run(a, w, run).flow, STAKE);
    SkippedExactly(a, w, run, STAKE);
  }

  /** The stake, or the swap it lives on, left nothing to hedge. */
  ghost predicate NothingToHedge(a: Assumptions, w: World, run: seq<Label>)
    requires Legal(a, w, run) && WellFormed(Run(a, w, run).flow)
  {
    Count(a, w, run, Resolving(STAKE)) > 0 || NothingOut(a, w, run, SWAP_MON)
  }

  /**
   In every run, no hedge is ever placed once the stake or the MON swap was finished by a resolution after a
   crash, or there is no MON to buy or to stake; and a completed flow has placed none only for one of these
   reasons. In the first, MON is staked unhedged.
   */
  lemma UnhedgedExactly(a: Assumptions, w: World, run: seq<Label>)
    requires Initial(w) && Legal(a, w, run)
    ensures var v := Run(a, w, run);
            && WellFormed(v.flow)
            && (NothingToHedge(a, w, run) ==> v.chain.orders == [])
            && (v.flow.status.Completed? ==> (v.chain.orders == [] <==> NothingToHedge(a, w, run)))
  {
    InitialShape(w);
    ShapeKept(a, w, run);
    HedgeOverRun(a, w, run);
    AmountsOverRun(a, w, run);
    var f := Run(a, w, run).flow;
    assert StepAmount(f, STAKE) && StepAmount(f, SWAP_MON);
    StakedNothing(a, w, run);
  }

  // ---- A run that stakes unhedged ----

  /** The transaction of step i lands, the process dies before the result is read back, and the next tick marks the step done. */
  lemma LandAndResolve(w: World, i: nat) returns (run: seq<Label>)
    requires AtStep(w, i) && i < SHORT && PlanFor(w.flow, i, 0, 0).Some?
    ensures Legal(ALL, w, run) && Finished(w, Run(ALL, w, run), i, None)
    ensures Landings(Run(ALL, w, run).chain, i) == Landings(w.chain, i) + 1
  {
    run := LandAndRecord(w, i, 0, 0);
    var run1, w1 := Extend(ALL, w, run, Crash);
    FirstOpenAt(w1.flow, i);
    var run2, w2 := Extend(ALL, w, run1, Resolve);
    var run3, w3 := Extend(ALL, w, run2, ResolveOk);
    FinishedMoves(w, w3, i, None);
    run := run3;
  }

  lemma CloseUnhedged(w: World) returns (run: seq<Label>)
    requires AtStep(w, SHORT) && StakedOf(w.flow) == 0
    ensures Legal(ALL, w, run)
    ensures Run(ALL, w, run).flow.status.Completed? && Run(ALL, w, run).chain == w.chain
  {
    var run1, w1 := Extend(ALL, w, [], Start);
    var run2, w2 := Extend(ALL, w, run1, ShortSkips);
    FirstOpenAt(w2.flow, STEPS);
    var run3, w3 := Extend(ALL, w, run2, Complete);
    run := run3;
  }

  /** What lands stays landed. */
  lemma {:induction false} LandingsGrow(c: Chain, d: Chain, i: nat, n: nat, m: nat)
    requires n <= |c.txs| && n <= m <= |d.txs|
    requires forall k :: 0 <= k < n ==> d.txs[k].step == c.txs[k].step && (c.txs[k].fate.Landed? ==> d.txs[k].fate.Landed?)
    ensures LandedBefore(c, i, n) <= LandedBefore(d, i, m)
    decreases m
  {
    if m > n { LandingsGrow(c, d, i, n, m - 1); } else if n > 0 { LandingsGrow(c, d, i, n - 1, m - 1); }
  }

  ghost predicate ChainGrows(c: Chain, d: Chain) {
    && |c.txs| <= |d.txs|
    && forall k :: 0 <= k < |c.txs| ==> d.txs[k].step == c.txs[k].step && (c.txs[k].fate.Landed? ==> d.txs[k].fate.Landed?)
  }

  lemma {:induction false} ChainGrowsOverRun(a: Assumptions, w: World, run: seq<Label>)
    requires Legal(a, w, run)
    ensures ChainGrows(w.chain, Run(a, w, run).chain)
    decreases |run|
  {
    if run != [] {
      assert ChainGrows(w.chain, Apply(a, w, run[0]).chain);
      ChainGrowsOverRun(a, Apply(a, w, run[0]), run[1..]);
    }
  }

  /** From the stake: it lands, the process dies, the step is resolved, the funding passes, and the hedge is skipped. */
  lemma StakeLostFrom(w: World) returns (run: seq<Label>)
    requires AtStep(w, STAKE) && OutputOf(w.flow, SWAP_MON) > 0
    ensures Legal(ALL, w, run)
    ensures var v := Run(ALL, w, run);
            v.flow.status.Completed? && v.chain.orders == w.chain.orders && Landings(v.chain, STAKE) >= Landings(w.chain, STAKE) + 1
  {
    var run0 := LandAndResolve(w, STAKE);
    var w1 := Run(ALL, w, run0);
    var run1 := PastFunding(w1);
    RunConcat(ALL, w, run0, run1);
    var w2 := Run(ALL, w1, run1);
    ChainGrowsOverRun(ALL, w1, run1);
    LandingsGrow(w1.chain, w2.chain, STAKE, |w1.chain.txs|, |w2.chain.txs|);
    assert StakedOf(w2.flow) == 0;
    var run2 := CloseUnhedged(w2);
    RunConcat(ALL, w, run0 + run1, run2);
    run := run0 + run1 + run2;
  }

  /** From every new flow that buys MON, for every amount bought: a run that stakes it, completes, and never places a hedge. */
  lemma StakedUnhedged(w: World, out: nat) returns (run: seq<Label>)
    requires Initial(w) && MonShare(w.flow) > 0 && out > 0
    ensures Legal(ALL, w, run)
    ensures var v := Run(ALL, w, run);
            v.flow.status.Completed? && Landings(v.chain, STAKE) >= 1 && v.chain.orders == []
  {
    var run0 := ReachStake(w, out);
    var run1 := StakeLostFrom(Run(ALL, w, run0));
    RunConcat(ALL, w, run0, run1);
    run := run0 + run1;
  }

  /** The same crash after either swap: what was bought is never staked, or never sent on, by any later run. */
  lemma BoughtButUnrecorded(w: World, swap: nat) returns (run: seq<Label>)
    requires Initial(w) && (swap == SWAP_MON || swap == SWAP_AUSD) && Share(w.flow, swap) != 0
    ensures Legal(ALL, w, run)
    ensures var v := Run(ALL, w, run);
            AtStep(v, swap + 1) && v.flow.steps[swap].result.None? && Landings(v.chain, swap) >= 1
  {
    NewFlowAtStart(w);
    if swap == SWAP_MON {
      run := LandAndResolve(w, swap);
    } else {
      var run0 := PassStep(w, SWAP_MON, 0);
      var u := Run(ALL, w, run0);
      var run1 := LandAndResolve(u, swap);
      RunConcat(ALL, w, run0, run1);
      run := run0 + run1;
    }
  }
}

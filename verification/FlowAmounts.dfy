// The amounts of the pipeline told from the flow's own figures, from what each attempt read, and from what the
// venue was asked: by arithmetic alone, with no word of how the plan computes them.
module FlowAmounts {
  import opened Options
  import opened FlowModel
  import opened FlowTheorems
  import opened FlowReach
  import opened FlowHedge
  import opened FlowRecords

  // ---- The split ----

  /** x is n ten-thousandths, rounded down. */
  ghost predicate Basis(x: int, n: int) { x * 10_000 <= n < (x + 1) * 10_000 }

  /** The MON swap sells the configured share of the allocation, the other swap exactly the rest. */
  ghost predicate SplitByRatio(f: Flow)
    requires WellFormed(f)
  {
    && (forall x, out: nat :: f.steps[SWAP_MON].result == Some(Swapped(x, out)) ==> Basis(x, f.usdcIn * f.ratioBps) && x > 0)
    && (forall y, out: nat :: f.steps[SWAP_AUSD].result == Some(Swapped(y, out)) ==> Basis(f.usdcIn - y, f.usdcIn * f.ratioBps) && y != 0)
  }

  /** Each swap is skipped exactly when its share is nothing. */
  ghost predicate SkipsByRatio(f: Flow)
    requires WellFormed(f)
  {
    && (f.steps[SWAP_MON].status.Done? ==> (f.steps[SWAP_MON].result == Some(Skipped) <==> f.usdcIn * f.ratioBps < 10_000))
    && (f.steps[SWAP_AUSD].status.Done? ==> (f.steps[SWAP_AUSD].result == Some(Skipped) <==> Basis(f.usdcIn, f.usdcIn * f.ratioBps)))
  }

  lemma ShareIsBasis(f: Flow)
    ensures Basis(MonShare(f), f.usdcIn * f.ratioBps)
    ensures MonShare(f) == 0 <==> f.usdcIn * f.ratioBps < 10_000
    ensures MonShare(f) == f.usdcIn <==> Basis(f.usdcIn, f.usdcIn * f.ratioBps)
  {
    BasisIsOne(MonShare(f), f.usdcIn, f.usdcIn * f.ratioBps);
  }

  lemma BasisIsOne(x: int, y: int, n: int)
    requires Basis(x, n)
    ensures Basis(y, n) <==> x == y
  {
  }

  /** Over every run, whatever the ratio. */
  lemma SplitFollowsRatio(a: Assumptions, w: World, run: seq<Label>)
    requires Initial(w) && Legal(a, w, run)
    ensures var f := Run(a, w, run).flow;
            WellFormed(f) && f.usdcIn == w.flow.usdcIn && f.ratioBps == w.flow.ratioBps && SplitByRatio(f) && SkipsByRatio(f)
  {
    InitialShape(w);
    AmountsOverRun(a, w, run);
    SkipOverRun(a, w, run, SWAP_MON);
    SkipOverRun(a, w, run, SWAP_AUSD);
    var f := Run(a, w, run).flow;
    ShareIsBasis(f);
    assert StepAmount(f, SWAP_MON) && StepAmount(f, SWAP_AUSD);
  }

  // ---- Approvals and deposits ----

  /** The attempt at step i read these two figures of the manager's account. */
  predicate Read(w: World, l: Label, i: nat, held: nat, allowance: nat) { l == Plan(held, allowance) && w.worker.Planning? && w.worker.i == i }

  ghost function Reading(i: nat, held: nat, allowance: nat): (World, Label) -> bool { (w: World, l: Label) => Read(w, l, i, held, allowance) }

  /** At the two steps that move what the manager holds, a plan moves all of it, and the approval only if it is not covered. */
  lemma HeldIsMoved(a: Assumptions, w: World, held: nat, allowance: nat)
    requires WellFormed(w.flow) && Enabled(a, w, Plan(held, allowance)) && (w.worker.i == APPROVE || w.worker.i == DEPOSIT)
    ensures var i, v := w.worker.i, Apply(a, w, Plan(held, allowance));
            if held == 0 || (i == APPROVE && allowance >= held)
            then WellFormed(v.flow) && v.worker.Idle? && v.flow.steps[i] == w.flow.steps[i].(status := Done, result := Some(Skipped))
            else v.worker == Planned(i, held) && v.flow == w.flow
  {
  }

  /** The amount in hand at step i, or the one it recorded. */
  ghost function InHand(w: World, i: nat): Option<int>
    requires At(w, i)
  {
    var k := w.worker;
    if Carries(k) && k.i == i then Some(k.amount)
    else match w.flow.steps[i].result
         case Some(Approved(n)) => Some(n)
         case Some(Deposited(n)) => Some(n)
         case _ => None
  }

  /** The figures read when an amount was planned: what is held, and for an approval less allowed. */
  ghost predicate FromRead(a: Assumptions, w: World, run: seq<Label>, i: nat, amount: int)
    requires Legal(a, w, run)
  {
    exists held: nat, allowance: nat ::
      held == amount && held > 0 && (i == APPROVE ==> allowance < held) && Count(a, w, run, Reading(i, held, allowance)) > 0
  }

  lemma HandStep(a: Assumptions, w: World, l: Label, i: nat)
    requires OrderInv(w) && WorkInv(w) && AmountInv(w) && Enabled(a, w, l) && (i == APPROVE || i == DEPOSIT)
    ensures At(Apply(a, w, l), i)
    ensures InHand(Apply(a, w, l), i).Some? && InHand(Apply(a, w, l), i) != InHand(w, i) ==>
              l.Plan? && Read(w, l, i, l.held, l.allowance) && InHand(Apply(a, w, l), i) == Some(l.held) && l.held > 0 && (i == APPROVE ==> l.allowance < l.held)
  {
    assert StepAmount(w.flow, i);
    OpenStep(a, w, l);
    if l.Plan? && w.worker.i == i {
      HeldIsMoved(a, w, l.held, l.allowance);
    } else {
      HandKept(a, w, l, i);
    }
  }

  /** Short of a plan of that step, no label puts an amount in its hands. */
  lemma HandKept(a: Assumptions, w: World, l: Label, i: nat)
    requires OrderInv(w) && WorkInv(w) && (i == APPROVE || i == DEPOSIT) && StepAmount(w.flow, i) && Enabled(a, w, l) && !(l.Plan? && w.worker.i == i)
    ensures At(Apply(a, w, l), i)
    ensures InHand(Apply(a, w, l), i).Some? ==> InHand(Apply(a, w, l), i) == InHand(w, i)
  {
    OpenStep(a, w, l);
    if FromOutside(l) || OfTick(l) { HandRests(a, w, l, i); }
  }

  lemma HandRests(a: Assumptions, w: World, l: Label, i: nat)
    requires OrderInv(w) && WorkInv(w) && (i == APPROVE || i == DEPOSIT) && StepAmount(w.flow, i) && Enabled(a, w, l) && (FromOutside(l) || OfTick(l))
    ensures At(Apply(a, w, l), i)
    ensures InHand(Apply(a, w, l), i).Some? ==> InHand(Apply(a, w, l), i) == InHand(w, i)
  {
    RestsRecordNothing(a, w, l, i);
    RestsCarryNothing(a, w, l);
  }

  lemma RestsRecordNothing(a: Assumptions, w: World, l: Label, i: nat)
    requires WellFormed(w.flow) && i < STEPS && Enabled(a, w, l) && (FromOutside(l) || OfTick(l))
    ensures At(Apply(a, w, l), i) && Apply(a, w, l).flow.steps[i].result == w.flow.steps[i].result
  {
  }

  predicate Carries(k: Worker) { k.Planned? || k.Pinned? || k.Broadcasting? || k.Broadcast? || k.Waiting? || k.Confirmed? }

  lemma RestsCarryNothing(a: Assumptions, w: World, l: Label)
    requires Enabled(a, w, l) && (FromOutside(l) || OfTick(l))
    ensures Carries(Apply(a, w, l).worker) ==> Apply(a, w, l).worker == w.worker
  {
  }

  /** Read now, or in what follows. */
  lemma ReadBefore(a: Assumptions, w: World, run: seq<Label>, i: nat, amount: int)
    requires run != [] && Legal(a, w, run)
    requires var l := run[0];
             || (l.Plan? && Read(w, l, i, l.held, l.allowance) && l.held == amount > 0 && (i == APPROVE ==> l.allowance < l.held))
             || FromRead(a, Apply(a, w, l), run[1..], i, amount)
    ensures FromRead(a, w, run, i, amount)
  {
    if FromRead(a, Apply(a, w, run[0]), run[1..], i, amount) {
      var held: nat, allowance: nat :|
        held == amount && held > 0 && (i == APPROVE ==> allowance < held) && Count(a, Apply(a, w, run[0]), run[1..], Reading(i, held, allowance)) > 0;
      assert Count(a, w, run, Reading(i, held, allowance)) > 0;
    } else {
      assert Reading(i, run[0].held, run[0].allowance)(w, run[0]);
      assert Count(a, w, run, Reading(i, run[0].held, run[0].allowance)) > 0;
    }
  }

  lemma {:induction false} HandOverRun(a: Assumptions, w: World, run: seq<Label>, i: nat)
    requires OrderInv(w) && WorkInv(w) && AmountInv(w) && PlanInv(w) && Legal(a, w, run) && (i == APPROVE || i == DEPOSIT)
    ensures var v := Run(a, w, run);
            At(v, i) && (InHand(v, i).Some? ==> InHand(v, i) == InHand(w, i) || FromRead(a, w, run, i, InHand(v, i).value))
    decreases |run|
  {
    if run != [] {
      var u, v := Apply(a, w, run[0]), Run(a, w, run);
      HandStep(a, w, run[0], i);
      ShapeStep(a, w, run[0]);
      AmountStep(a, w, run[0]);
      HandOverRun(a, u, run[1..], i);
      if InHand(v, i).Some? && InHand(v, i) != InHand(w, i) { ReadBefore(a, w, run, i, InHand(v, i).value); }
    }
  }

  /**
   In every run an approval or deposit that is recorded moved all that some attempt at that step read the manager to
   hold, more than nothing and, for an approval, more than what was already allowed.
   */
  lemma HeldIsRecorded(a: Assumptions, w: World, run: seq<Label>, n: nat)
    requires Initial(w) && Legal(a, w, run)
    ensures var f := Run(a, w, run).flow;
            && WellFormed(f)
            && (f.steps[APPROVE].result == Some(Approved(n)) ==> FromRead(a, w, run, APPROVE, n))
            && (f.steps[DEPOSIT].result == Some(Deposited(n)) ==> FromRead(a, w, run, DEPOSIT, n))
  {
    InitialShape(w);
    ShapeKept(a, w, run);
    AmountsOverRun(a, w, run);
    HandOverRun(a, w, run, APPROVE);
    HandOverRun(a, w, run, DEPOSIT);
    RecordedInHand(Run(a, w, run), APPROVE);
    RecordedInHand(Run(a, w, run), DEPOSIT);
  }

  lemma RecordedInHand(v: World, i: nat)
    requires OrderInv(v) && WorkInv(v) && AmountInv(v) && (i == APPROVE || i == DEPOSIT)
    ensures forall n: nat :: v.flow.steps[i].result == Some(Approved(n)) || v.flow.steps[i].result == Some(Deposited(n)) ==> InHand(v, i) == Some(n)
  {
    assert StepAmount(v.flow, i);
  }

  // ---- The size of the hedge ----

  /** Every order is of the whole MON of the stake, neither more nor less. */
  ghost predicate OrdersSized(w: World)
    requires WellFormed(w.flow)
  {
    forall k :: 0 <= k < |w.chain.orders| ==> w.chain.orders[k] > 0 && w.chain.orders[k] * MON <= StakedOf(w.flow) < (w.chain.orders[k] + 1) * MON
  }

  lemma SizeStep(a: Assumptions, w: World, l: Label)
    requires OrderInv(w) && WorkInv(w) && AmountInv(w) && HedgeInv(w) && OrdersSized(w) && Enabled(a, w, l)
    ensures WellFormed(Apply(a, w, l).flow) && OrdersSized(Apply(a, w, l))
  {
    StakeKept(a, w, l);
    if !l.Submit? { OrdersKept(a, w, l); }
  }

  lemma OrdersKept(a: Assumptions, w: World, l: Label)
    requires Enabled(a, w, l) && !l.Submit?
    ensures Apply(a, w, l).chain.orders == w.chain.orders
  {
  }

  lemma {:induction false} SizesOverRun(a: Assumptions, w: World, run: seq<Label>)
    requires OrderInv(w) && WorkInv(w) && AmountInv(w) && PlanInv(w) && HedgeInv(w) && OrdersSized(w) && Legal(a, w, run)
    ensures WellFormed(Run(a, w, run).flow) && OrdersSized(Run(a, w, run))
    decreases |run|
  {
    if run != [] {
      SizeStep(a, w, run[0]);
      HedgeKept(a, w, run[0]);
      ShapeStep(a, w, run[0]);
      AmountStep(a, w, run[0]);
      SizesOverRun(a, Apply(a, w, run[0]), run[1..]);
    }
  }

  /** In every run each order the venue placed is of the whole MON of the recorded stake. */
  lemma EveryOrderSized(a: Assumptions, w: World, run: seq<Label>, k: nat)
    requires Initial(w) && Legal(a, w, run) && k < |Run(a, w, run).chain.orders|
    ensures var v := Run(a, w, run);
            && WellFormed(v.flow)
            && exists n: nat :: v.flow.steps[STAKE].result == Some(Staked(n)) && v.chain.orders[k] * MON <= n < (v.chain.orders[k] + 1) * MON
  {
    InitialShape(w);
    HedgeOverRun(a, w, run);
    SizesOverRun(a, w, run);
    var v := Run(a, w, run);
    assert v.flow.steps[STAKE].result == Some(Staked(StakedOf(v.flow)));
  }
}

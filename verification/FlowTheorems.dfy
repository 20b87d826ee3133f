/** What every run of the pipeline keeps: order, write-ahead, amounts and the retry budget. */
module FlowTheorems {
  import opened Options
  import opened FlowModel

  // ---- Runs ----

  lemma {:induction false} RunConcat(a: Assumptions, w: World, first: seq<Label>, second: seq<Label>)
    requires Legal(a, w, first) && Legal(a, Run(a, w, first), second)
    ensures Legal(a, w, first + second) && Run(a, w, first + second) == Run(a, Run(a, w, first), second)
    decreases |first|
  {
    if first == [] {
      assert first + second == second;
    } else {
      assert (first + second)[0] == first[0] && (first + second)[1..] == first[1..] + second;
      RunConcat(a, Apply(a, w, first[0]), first[1..], second);
    }
  }

  /** One more step. */
  lemma Extend(a: Assumptions, w: World, run: seq<Label>, l: Label) returns (longer: seq<Label>, v: World)
    requires Legal(a, w, run) && Enabled(a, Run(a, w, run), l)
    ensures longer == run + [l] && Legal(a, w, longer) && v == Run(a, w, longer) == Apply(a, Run(a, w, run), l)
  {
    var u := Run(a, w, run);
    assert [l][1..] == [];
    RunConcat(a, w, run, [l]);
    longer, v := run + [l], Apply(a, u, l);
  }

  lemma InitialShape(w: World)
    requires Initial(w)
    ensures OrderInv(w) && WorkInv(w) && FirstOpen(w.flow) == 0
  {
    FirstOpenAt(w.flow, 0);
  }

  // ---- Strict order ----

  /** Done before k, untouched after it, and finished only when nothing is left. */
  ghost predicate OpenAt(f: Flow, k: nat) {
    && |f.steps| == STEPS && k <= STEPS
    && (forall j :: 0 <= j < k ==> f.steps[j].status.Done?)
    && (forall j :: k < j < STEPS ==> f.steps[j] == FRESH)
    && (k < STEPS ==> !f.steps[k].status.Done?)
    && (f.status.Completed? ==> k == STEPS)
  }

  /** Any document a run can leave behind: done steps, at most one touched step, then untouched ones. */
  lemma StrictOrder(a: Assumptions, w: World, run: seq<Label>)
    requires Initial(w) && Legal(a, w, run)
    ensures exists k: nat :: OpenAt(Run(a, w, run).flow, k)
  {
    InitialShape(w);
    ShapeKept(a, w, run);
    var f := Run(a, w, run).flow;
    assert forall j :: FirstOpen(f) < j < STEPS ==> Untouched(f.steps[j]);
    assert OpenAt(f, FirstOpen(f));
  }

  lemma StepKeepsDone(a: Assumptions, w: World, l: Label, i: nat)
    requires OrderInv(w) && WorkInv(w) && Enabled(a, w, l) && i < STEPS && w.flow.steps[i].status.Done?
    ensures Apply(a, w, l).flow.steps[i] == w.flow.steps[i]
  {
    OpenStep(a, w, l);
    DoneIsBeforeOpen(w, i);
  }

  lemma DoneIsBeforeOpen(w: World, i: nat)
    requires WellFormed(w.flow) && i < STEPS && w.flow.steps[i].status.Done?
    ensures i != FirstOpen(w.flow)
  {
  }

  /** A done step is never written again. */
  lemma {:induction false} DoneIsFinal(a: Assumptions, w: World, run: seq<Label>, i: nat)
    requires OrderInv(w) && WorkInv(w) && Legal(a, w, run) && i < STEPS && w.flow.steps[i].status.Done?
    ensures |Run(a, w, run).flow.steps| == STEPS && Run(a, w, run).flow.steps[i] == w.flow.steps[i]
    decreases |run|
  {
    if run != [] {
      StepKeepsDone(a, w, run[0], i);
      ShapeStep(a, w, run[0]);
      DoneIsFinal(a, Apply(a, w, run[0]), run[1..], i);
    }
  }

  /** A transaction reaches the chain only under a nonce its step already holds in the database, and only as the step in hand. */
  lemma BroadcastIsWrittenAhead(a: Assumptions, w: World, run: seq<Label>, l: Label)
    requires Initial(w) && Legal(a, w, run) && Enabled(a, Run(a, w, run), l)
    requires |Apply(a, Run(a, w, run), l).chain.txs| != |Run(a, w, run).chain.txs|
    ensures var u, v := Run(a, w, run), Apply(a, Run(a, w, run), l);
            && WellFormed(u.flow) && |v.chain.txs| == |u.chain.txs| + 1 && v.chain.txs[..|u.chain.txs|] == u.chain.txs
            && var t := v.chain.txs[|u.chain.txs|];
              && t.step < SHORT && t.step == FirstOpen(u.flow)
              && u.flow.steps[t.step].status.Sending? && u.flow.steps[t.step].nonce == Some(t.nonce)
  {
    InitialShape(w);
    ShapeKept(a, w, run);
  }

  // ---- Amounts ----

  /** What step j records is what an earlier step recorded, and only a done step records anything. */
  ghost predicate StepAmount(f: Flow, j: nat)
    requires WellFormed(f) && j < STEPS
  {
    match f.steps[j].result
    case None => true
    case Some(r) =>
      f.steps[j].status.Done? &&
      match r
      case Skipped => true
      case Swapped(usdc, _) => usdc != 0 && ((j == SWAP_MON && usdc == MonShare(f)) || (j == SWAP_AUSD && usdc == f.usdcIn - MonShare(f)))
      case Staked(n) => j == STAKE && n == OutputOf(f, SWAP_MON) > 0
      case Funded(n) => j == FUND && n == OutputOf(f, SWAP_AUSD) > 0
      case Approved(_) => j == APPROVE
      case Deposited(_) => j == DEPOSIT
      case Shorted(n) => j == SHORT && n == ShortSize(f) > 0
  }

  ghost predicate AmountInv(w: World)
    requires WellFormed(w.flow)
  {
    forall j :: 0 <= j < STEPS ==> StepAmount(w.flow, j)
  }

  ghost predicate PlanInv(w: World)
    requires WellFormed(w.flow)
  {
    var k := w.worker;
    k.Planned? || k.Pinned? || k.Broadcasting? || k.Broadcast? || k.Waiting? || k.Confirmed? ==>
      k.i < SHORT && exists held, allowance :: PlanFor(w.flow, k.i, held, allowance) == Some(k.amount)
  }

  /** A plan depends on earlier steps only, so writing the current step leaves it alone. */
  lemma PlanStable(f: Flow, g: Flow, i: nat, held: nat, allowance: nat)
    requires WellFormed(f) && WellFormed(g) && i < SHORT
    requires f.usdcIn == g.usdcIn && f.ratioBps == g.ratioBps
    requires forall j :: 0 <= j < i ==> f.steps[j] == g.steps[j]
    ensures PlanFor(f, i, held, allowance) == PlanFor(g, i, held, allowance)
  {
  }

  lemma AmountStep(a: Assumptions, w: World, l: Label)
    requires OrderInv(w) && WorkInv(w) && AmountInv(w) && PlanInv(w) && Enabled(a, w, l)
    ensures WellFormed(Apply(a, w, l).flow) && AmountInv(Apply(a, w, l)) && PlanInv(Apply(a, w, l)) && OpenMoves(w, Apply(a, w, l))
  {
    var v := Apply(a, w, l);
    ShapeStep(a, w, l);
    OpenStep(a, w, l);
    AmountsKept(a, w, l);
    var k := v.worker;
    if k.Planned? || k.Pinned? || k.Broadcasting? || k.Broadcast? || k.Waiting? || k.Confirmed? {
      if l.Plan? {
        assert PlanFor(w.flow, k.i, l.held, l.allowance) == Some(k.amount);
      } else {
        var held, allowance :| PlanFor(w.flow, k.i, held, allowance) == Some(k.amount);
        PlanStable(w.flow, v.flow, k.i, held, allowance);
      }
    }
  }

  /** Earlier records are untouched and later steps have none, so only the written step is in question. */
  lemma OthersKeepAmounts(f: Flow, g: Flow, i: nat, j: nat)
    requires WellFormed(f) && WellFormed(g) && i < STEPS && j < STEPS && i != j
    requires f.usdcIn == g.usdcIn && f.ratioBps == g.ratioBps
    requires forall k :: 0 <= k < STEPS && k != i ==> g.steps[k] == f.steps[k]
    requires StepAmount(f, j) && (j > i ==> f.steps[j] == FRESH)
    ensures StepAmount(g, j)
  {
  }

  lemma SettledAmount(f: Flow, i: nat, amount: int, out: nat, held: nat, allowance: nat, g: Flow)
    requires WellFormed(f) && WellFormed(g) && i < SHORT && PlanFor(f, i, held, allowance) == Some(amount)
    requires f.usdcIn == g.usdcIn && f.ratioBps == g.ratioBps
    requires forall k :: 0 <= k < STEPS && k != i ==> g.steps[k] == f.steps[k]
    requires g.steps[i].result == Some(ResultFor(i, amount, out)) && g.steps[i].status.Done?
    ensures StepAmount(g, i)
  {
  }

  lemma AmountsKept(a: Assumptions, w: World, l: Label)
    requires OrderInv(w) && WorkInv(w) && AmountInv(w) && PlanInv(w) && Enabled(a, w, l)
    ensures WellFormed(Apply(a, w, l).flow) && AmountInv(Apply(a, w, l))
  {
    OpenStep(a, w, l);
    OthersFollow(w, Apply(a, w, l));
    if FirstOpen(w.flow) < STEPS { CurrentKeepsAmount(a, w, l); }
  }

  /** Every record but that of the step in hand stays right. */
  lemma OthersFollow(w: World, v: World)
    requires OrderInv(w) && AmountInv(w) && OpenMoves(w, v)
    ensures forall j :: 0 <= j < STEPS && j != FirstOpen(w.flow) ==> StepAmount(v.flow, j)
  {
    var i := FirstOpen(w.flow);
    forall j | 0 <= j < STEPS && j != i ensures StepAmount(v.flow, j) {
      assert StepAmount(w.flow, j);
      if i < STEPS {
        assert j > i ==> Untouched(w.flow.steps[j]);
        OthersKeepAmounts(w.flow, v.flow, i, j);
      } else {
        assert v.flow.steps == w.flow.steps;
      }
    }
  }

  lemma CurrentKeepsAmount(a: Assumptions, w: World, l: Label)
    requires OrderInv(w) && WorkInv(w) && PlanInv(w) && Enabled(a, w, l)
    requires FirstOpen(w.flow) < STEPS && AmountInv(w)
    ensures WellFormed(Apply(a, w, l).flow) && StepAmount(Apply(a, w, l).flow, FirstOpen(w.flow))
  {
    var v := Apply(a, w, l);
    var i := FirstOpen(w.flow);
    assert StepAmount(w.flow, i);
    OpenStep(a, w, l);
    if l.Settle? {
      var held, allowance :| PlanFor(w.flow, w.worker.i, held, allowance) == Some(w.worker.amount);
      SettledAmount(w.flow, i, w.worker.amount, l.out, held, allowance, v.flow);
    } else if l.RecordShort? {
      assert ShortSize(v.flow) == ShortSize(w.flow);
    } else {
      RecordsNothing(a, w, l);
    }
  }

  /** Apart from the labels that finish a step, none writes a result other than a skip. */
  lemma RecordsNothing(a: Assumptions, w: World, l: Label)
    requires OrderInv(w) && WorkInv(w) && Enabled(a, w, l) && FirstOpen(w.flow) < STEPS && !l.Settle? && !l.RecordShort?
    requires w.flow.steps[FirstOpen(w.flow)].result.None?
    ensures var i, v := FirstOpen(w.flow), Apply(a, w, l);
            i < |v.flow.steps| && (v.flow.steps[i].result.None? || (v.flow.steps[i].result == Some(Skipped) && v.flow.steps[i].status.Done?))
  {
  }

  lemma {:induction false} AmountsOverRun(a: Assumptions, w: World, run: seq<Label>)
    requires OrderInv(w) && WorkInv(w) && AmountInv(w) && PlanInv(w) && Legal(a, w, run)
    ensures WellFormed(Run(a, w, run).flow) && AmountInv(Run(a, w, run))
    ensures Run(a, w, run).flow.usdcIn == w.flow.usdcIn && Run(a, w, run).flow.ratioBps == w.flow.ratioBps
    decreases |run|
  {
    if run != [] {
      ShapeStep(a, w, run[0]);
      AmountStep(a, w, run[0]);
      AmountsOverRun(a, Apply(a, w, run[0]), run[1..]);
    }
  }

  /**
   Over any run and crash schedule: the two swaps together spend exactly the allocation, whatever the
   ratio; the stake and the funding move exactly what the swaps produced; the short covers the whole MON
   of the stake and nothing more.
   */
  lemma PipelineAmounts(a: Assumptions, w: World, run: seq<Label>)
    requires Initial(w) && Legal(a, w, run)
    ensures var f := Run(a, w, run).flow;
            && |f.steps| == STEPS
            && (forall x, y, p: nat, q: nat :: f.steps[SWAP_MON].result == Some(Swapped(x, p)) && f.steps[SWAP_AUSD].result == Some(Swapped(y, q))
                  ==> x + y == w.flow.usdcIn)
            && (forall n: nat :: f.steps[STAKE].result == Some(Staked(n)) ==> exists x :: f.steps[SWAP_MON].result == Some(Swapped(x, n)))
            && (forall n: nat :: f.steps[FUND].result == Some(Funded(n)) ==> exists y :: f.steps[SWAP_AUSD].result == Some(Swapped(y, n)))
            && (forall size: nat :: f.steps[SHORT].result == Some(Shorted(size)) ==>
                  exists n: nat :: f.steps[STAKE].result == Some(Staked(n)) && size * MON <= n < (size + 1) * MON)
  {
    InitialShape(w);
    AmountsOverRun(a, w, run);
    var f := Run(a, w, run).flow;
    assert forall j :: 0 <= j < STEPS ==> StepAmount(f, j);
    assert StepAmount(f, SWAP_MON) && StepAmount(f, SWAP_AUSD) && StepAmount(f, STAKE) && StepAmount(f, FUND) && StepAmount(f, SHORT);
    forall n: nat | f.steps[STAKE].result == Some(Staked(n)) ensures exists x :: f.steps[SWAP_MON].result == Some(Swapped(x, n)) {
      assert f.steps[SWAP_MON].result == Some(Swapped(f.steps[SWAP_MON].result.value.usdcIn, n));
    }
    forall n: nat | f.steps[FUND].result == Some(Funded(n)) ensures exists y :: f.steps[SWAP_AUSD].result == Some(Swapped(y, n)) {
      assert f.steps[SWAP_AUSD].result == Some(Swapped(f.steps[SWAP_AUSD].result.value.usdcIn, n));
    }
    forall size: nat | f.steps[SHORT].result == Some(Shorted(size))
      ensures exists n: nat :: f.steps[STAKE].result == Some(Staked(n)) && size * MON <= n < (size + 1) * MON
    {
      assert f.steps[STAKE].result == Some(Staked(StakedOf(f)));
    }
  }

  // ---- Retry budget ----

  predicate EntersFailed(a: Assumptions, w: World, l: Label, i: nat)
    requires Enabled(a, w, l) && i < |w.flow.steps| && i < |Apply(a, w, l).flow.steps|
  {
    !w.flow.steps[i].status.Failed? && Apply(a, w, l).flow.steps[i].status.Failed?
  }

  /** How often a run moves step i into `failed`. */
  ghost function Failures(a: Assumptions, w: World, run: seq<Label>, i: nat): nat
    requires OrderInv(w) && WorkInv(w) && Legal(a, w, run) && i < STEPS
    decreases |run|
  {
    if run == [] then 0
    else
      ShapeStep(a, w, run[0]);
      (if EntersFailed(a, w, run[0], i) then 1 else 0) + Failures(a, Apply(a, w, run[0]), run[1..], i)
  }

  ghost function AtMost(a: int, b: int): int { if a < b then a else b }

  ghost function AtLeast(a: int, b: int): int { if a < b then b else a }

  /** How often it can still happen. An attempt in hand may fail at its own number, a resting one at the next. */
  ghost function Remaining(w: World, i: nat): nat
    requires WellFormed(w.flow) && i < STEPS
  {
    var s := w.flow.steps[i];
    if s.status.Done? || s.status.NeedsReview? then 0
    else if s.status.Failed? then AtLeast(0, MAX_ATTEMPTS - s.attempts)
    else if s.status.Pending? && Working(w.worker) != Some(i) then AtLeast(1, MAX_ATTEMPTS - s.attempts)
    else AtLeast(1, MAX_ATTEMPTS - s.attempts + 1)
  }

  lemma RemainingElsewhere(a: Assumptions, w: World, l: Label, i: nat)
    requires OrderInv(w) && WorkInv(w) && Enabled(a, w, l) && i < STEPS && i != FirstOpen(w.flow)
    ensures WellFormed(Apply(a, w, l).flow) && Apply(a, w, l).flow.steps[i] == w.flow.steps[i]
    ensures Remaining(Apply(a, w, l), i) <= Remaining(w, i)
  {
    OpenStep(a, w, l);
    RemainingApart(w, Apply(a, w, l), i);
  }

  lemma RemainingApart(w: World, v: World, i: nat)
    requires OrderInv(w) && OpenMoves(w, v) && i < STEPS && i != FirstOpen(w.flow)
    ensures Remaining(v, i) <= Remaining(w, i)
  {
  }

  /** The labels that fail a step in hand or in doubt. */
  predicate Fails(l: Label) { l.ResolveThrows? || l.Catch? }

  lemma RemainingOnFailure(a: Assumptions, w: World, l: Label, i: nat)
    requires OrderInv(w) && WorkInv(w) && Enabled(a, w, l) && i < STEPS && i == FirstOpen(w.flow) && Fails(l)
    ensures WellFormed(Apply(a, w, l).flow) && Remaining(Apply(a, w, l), i) + 1 <= Remaining(w, i)
  {
  }

  /** The labels that write the step and do not fail it. */
  predicate Writes(l: Label) {
    l.Start? || l.Unpinned? || l.Unused? || l.Spent? || l.ResolveOk? || l.Plan? || l.WriteAhead? || l.RecordHash? || l.Settle?
    || l.ShortSkips? || l.RecordShort?
  }

  lemma RemainingOnWrite(a: Assumptions, w: World, l: Label, i: nat)
    requires OrderInv(w) && WorkInv(w) && Enabled(a, w, l) && i < STEPS && i == FirstOpen(w.flow) && Writes(l)
    ensures WellFormed(Apply(a, w, l).flow) && !EntersFailed(a, w, l, i) && Remaining(Apply(a, w, l), i) <= Remaining(w, i)
  {
    if OfTick(l) { RemainingOnTick(a, w, l, i); }
  }

  lemma RemainingOnTick(a: Assumptions, w: World, l: Label, i: nat)
    requires OrderInv(w) && WorkInv(w) && Enabled(a, w, l) && i < STEPS && i == FirstOpen(w.flow) && Writes(l) && OfTick(l)
    ensures WellFormed(Apply(a, w, l).flow) && !EntersFailed(a, w, l, i) && Remaining(Apply(a, w, l), i) <= Remaining(w, i)
  {
  }

  lemma RemainingOtherwise(a: Assumptions, w: World, l: Label, i: nat)
    requires OrderInv(w) && WorkInv(w) && Enabled(a, w, l) && i < STEPS && i == FirstOpen(w.flow) && !Fails(l) && !Writes(l)
    ensures WellFormed(Apply(a, w, l).flow) && !EntersFailed(a, w, l, i) && Remaining(Apply(a, w, l), i) <= Remaining(w, i)
  {
  }

  lemma RemainingStep(a: Assumptions, w: World, l: Label, i: nat)
    requires OrderInv(w) && WorkInv(w) && Enabled(a, w, l) && i < STEPS
    ensures WellFormed(Apply(a, w, l).flow)
    ensures Remaining(Apply(a, w, l), i) + (if EntersFailed(a, w, l, i) then 1 else 0) <= Remaining(w, i)
  {
    if i != FirstOpen(w.flow) {
      RemainingElsewhere(a, w, l, i);
    } else if Fails(l) {
      RemainingOnFailure(a, w, l, i);
    } else if Writes(l) {
      RemainingOnWrite(a, w, l, i);
    } else {
      RemainingOtherwise(a, w, l, i);
    }
  }

  lemma {:induction false} FailuresWithinBudget(a: Assumptions, w: World, run: seq<Label>, i: nat)
    requires OrderInv(w) && WorkInv(w) && Legal(a, w, run) && i < STEPS
    ensures Failures(a, w, run, i) <= Remaining(w, i)
    decreases |run|
  {
    if run != [] {
      RemainingStep(a, w, run[0], i);
      ShapeStep(a, w, run[0]);
      FailuresWithinBudget(a, Apply(a, w, run[0]), run[1..], i);
    }
  }

  ghost predicate Exhausted(w: World, i: nat)
    requires WellFormed(w.flow) && i < STEPS
  {
    w.flow.steps[i].status.Failed? && w.flow.steps[i].attempts >= MAX_ATTEMPTS && FirstOpen(w.flow) == i
    && (w.worker.Idle? || w.worker.Closing?)
  }

  lemma {:induction false} ExhaustedStays(a: Assumptions, w: World, run: seq<Label>, i: nat)
    requires OrderInv(w) && WorkInv(w) && Legal(a, w, run) && i < STEPS && Exhausted(w, i) && !w.flow.status.Completed?
    ensures var v := Run(a, w, run);
            WellFormed(v.flow) && v.flow.steps == w.flow.steps && !v.flow.status.Completed? && (w.flow.status.Abandoned? ==> v.flow.status.Abandoned?)
    decreases |run|
  {
    if run != [] {
      ShapeStep(a, w, run[0]);
      assert Apply(a, w, run[0]).flow.steps == w.flow.steps;
      ExhaustedStays(a, Apply(a, w, run[0]), run[1..], i);
    }
  }

  /**
   From a new flow, no run fails a step more than MAX_ATTEMPTS times. Once the last failure is written the
   step is never tried again, the flow can only end failed, and the very next tick ends it.
   */
  lemma RetryBudget(a: Assumptions, w: World, run: seq<Label>, i: nat)
    requires Initial(w) && Legal(a, w, run) && i < STEPS
    ensures OrderInv(w) && WorkInv(w) && Failures(a, w, run, i) <= MAX_ATTEMPTS
    ensures var v := Run(a, w, run); WellFormed(v.flow) && (OutOfAttempts(v, i) ==> OnlyEnds(a, v))
  {
    InitialShape(w);
    FailuresWithinBudget(a, w, run, i);
    ShapeKept(a, w, run);
    var v := Run(a, w, run);
    if OutOfAttempts(v, i) { NextTickEnds(a, v, i); }
  }

  /** A running flow at rest whose step i failed for the last time. */
  ghost predicate OutOfAttempts(v: World, i: nat)
    requires WellFormed(v.flow) && i < STEPS
  {
    v.worker.Idle? && v.flow.status.Running? && v.flow.steps[i].status.Failed? && v.flow.steps[i].attempts >= MAX_ATTEMPTS
  }

  /** The next tick can end the flow as failed, and can neither try nor resolve a step. */
  ghost predicate OnlyEnds(a: Assumptions, v: World) {
    Enabled(a, v, GiveUp) && Apply(a, v, GiveUp).flow.status.Abandoned? && !Enabled(a, v, Start) && !Enabled(a, v, Resolve)
  }

  lemma NextTickEnds(a: Assumptions, v: World, i: nat)
    requires OrderInv(v) && i < STEPS && OutOfAttempts(v, i)
    ensures OnlyEnds(a, v)
  {
    FirstOpenIs(v, i);
  }

  lemma FirstOpenIs(w: World, i: nat)
    requires OrderInv(w) && i < STEPS && !w.flow.steps[i].status.Done? && w.flow.steps[i] != FRESH
    ensures FirstOpen(w.flow) == i
  {
    assert FirstOpen(w.flow) < i < STEPS ==> Untouched(w.flow.steps[i]);
  }

  // ---- Spent without a hash ----

  /** The nonce was mined and no hash was written: the step waits for a person, or is about to. */
  ghost predicate SpentUnseen(w: World, i: nat)
    requires WellFormed(w.flow) && i < STEPS
  {
    && FirstOpen(w.flow) == i
    && var s := w.flow.steps[i];
      && s.txHash.None? && s.nonce.Some?
      && ((s.status.Sending? && w.worker.Idle? && s.nonce.value < Latest(w.chain, SignerOf(i))) || s.status.NeedsReview?)
  }

  /** Waiting for a person, or about to, with the steps as they were but for that mark; while it is missing a running flow's next tick can set it. */
  ghost predicate StillSpent(a: Assumptions, w: World, v: World, i: nat)
    requires WellFormed(w.flow) && WellFormed(v.flow) && i < STEPS
  {
    && SpentUnseen(v, i) && |v.chain.txs| == |w.chain.txs|
    && v.flow.steps == w.flow.steps[i := w.flow.steps[i].(status := v.flow.steps[i].status)]
    && (w.flow.steps[i].status.NeedsReview? ==> v.flow.steps == w.flow.steps)
    && (v.flow.status.Running? && v.flow.steps[i].status.Sending? ==> Enabled(a, v, Spent) && Apply(a, v, Spent).flow.steps[i].status.NeedsReview?)
  }

  lemma SpentStep(a: Assumptions, w: World, l: Label, i: nat)
    requires OrderInv(w) && WorkInv(w) && Enabled(a, w, l) && i < STEPS && SpentUnseen(w, i)
    ensures WellFormed(Apply(a, w, l).flow) && StillSpent(a, w, Apply(a, w, l), i)
  {
    var v := Apply(a, w, l);
    FirstOpenAt(v.flow, i);
  }

  lemma {:induction false} SpentNeverResent(a: Assumptions, w: World, run: seq<Label>, i: nat)
    requires OrderInv(w) && WorkInv(w) && Legal(a, w, run) && i < STEPS && SpentUnseen(w, i)
    ensures WellFormed(Run(a, w, run).flow) && StillSpent(a, w, Run(a, w, run), i)
    decreases |run|
  {
    if run != [] {
      ShapeStep(a, w, run[0]);
      SpentStep(a, w, run[0], i);
      SpentNeverResent(a, Apply(a, w, run[0]), run[1..], i);
    }
  }
}

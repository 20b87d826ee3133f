// Two promises of the pipeline and exactly when they hold: a step is tried at most MAX_ATTEMPTS times, and a
// flow that waits for a person is closed.
module FlowLimits {
  import opened Options
  import opened FlowModel
  import opened FlowTheorems
  import opened FlowLandings
  import opened FlowLandingTheorems
  import opened FlowReach

  // ---- How often a step is tried ----

  predicate StartsStep(w: World, l: Label, i: nat) { l.Start? && WellFormed(w.flow) && FirstOpen(w.flow) == i }

  predicate PlanningFails(w: World, l: Label, i: nat) { l.PlanThrows? && w.worker.Planning? && w.worker.i == i }

  /** A crash, or a throw while the nonce is pinned, with the step in hand still pending: before the write ahead, or with a short order out. */
  predicate CrashesPending(w: World, l: Label, i: nat) {
    l.Crash? && Working(w.worker) == Some(i) && At(w, i) && w.flow.steps[i].status.Pending?
  }

  /** An interrupted step is put back because its nonce was never used. */
  predicate PutBack(w: World, l: Label, i: nat) { l.Unused? && WellFormed(w.flow) && FirstOpen(w.flow) == i }

  /** The three ways an attempt ends with the step pending again. */
  datatype Kind = Throws | Dies | Returns

  predicate CutsBut(kinds: set<Kind>, w: World, l: Label, i: nat) {
    || (Throws !in kinds && PlanningFails(w, l, i))
    || (Dies !in kinds && CrashesPending(w, l, i))
    || (Returns !in kinds && PutBack(w, l, i))
  }

  ghost function Starting(i: nat): (World, Label) -> bool { (w: World, l: Label) => StartsStep(w, l, i) }

  /** A cut of a kind outside the set. */
  ghost function CuttingBut(kinds: set<Kind>, i: nat): (World, Label) -> bool {
    (w: World, l: Label) => CutsBut(kinds, w, l, i)
  }

  ghost function Starts(w: World, run: seq<Label>, i: nat): nat
    requires Legal(ALL, w, run)
  {
    Count(ALL, w, run, Starting(i))
  }

  /** The attempts that ended with the step pending again. */
  ghost function CutShort(w: World, run: seq<Label>, i: nat): nat
    requires Legal(ALL, w, run)
  {
    Count(ALL, w, run, CuttingBut({}, i))
  }

  /** A step in doubt has a nonce; so no tick ever meets one without. */
  ghost predicate NonceInv(w: World, i: nat)
    requires At(w, i)
  {
    w.flow.steps[i].status.Sending? || w.flow.steps[i].status.Sent? ==> w.flow.steps[i].nonce.Some?
  }

  /** The attempts so far, less those cut short: a step at rest and pending has one in hand. */
  ghost predicate TriesInv(w: World, i: nat, cuts: nat)
    requires At(w, i)
  {
    var s := w.flow.steps[i];
    s.attempts <= MAX_ATTEMPTS + cuts && (s.status.Pending? && !Busy(w, i) ==> s.attempts < MAX_ATTEMPTS + cuts)
  }

  ghost function Cut(w: World, l: Label, i: nat): nat { One(CuttingBut({}, i)(w, l)) }

  lemma TriesStep(w: World, l: Label, i: nat, cuts: nat)
    requires OrderInv(w) && WorkInv(w) && Enabled(ALL, w, l) && i < STEPS && NonceInv(w, i) && TriesInv(w, i, cuts)
    ensures var v := Apply(ALL, w, l);
            TriesFollow(w, v, l, i, cuts)
  {
    if FirstOpen(w.flow) != i {
      OpenStep(ALL, w, l);
      TriesApart(w, l, i, cuts);
    } else if FromOutside(l) || l.PlanThrows? {
      TriesCut(w, l, i, cuts);
    } else if OfTick(l) {
      TriesOnTick(w, l, i, cuts);
    } else {
      TriesOnAttempt(w, l, i, cuts);
    }
  }

  ghost predicate TriesFollow(w: World, v: World, l: Label, i: nat, cuts: nat) {
    && At(w, i) && At(v, i) && NonceInv(v, i) && TriesInv(v, i, cuts + Cut(w, l, i))
    && v.flow.steps[i].attempts == w.flow.steps[i].attempts + One(Starting(i)(w, l))
  }

  lemma TriesApart(w: World, l: Label, i: nat, cuts: nat)
    requires OrderInv(w) && WorkInv(w) && Enabled(ALL, w, l) && i < STEPS && NonceInv(w, i) && TriesInv(w, i, cuts)
    requires FirstOpen(w.flow) != i && OpenMoves(w, Apply(ALL, w, l))
    ensures TriesFollow(w, Apply(ALL, w, l), l, i, cuts)
  {
    NoCutElsewhere(w, l, i);
    TriesSame(w, Apply(ALL, w, l), i, cuts);
  }

  lemma NoCutElsewhere(w: World, l: Label, i: nat)
    requires OrderInv(w) && Enabled(ALL, w, l) && FirstOpen(w.flow) != i
    ensures Cut(w, l, i) == 0 && One(Starting(i)(w, l)) == 0
  {
  }

  lemma TriesSame(w: World, v: World, i: nat, cuts: nat)
    requires OrderInv(w) && OpenMoves(w, v) && FirstOpen(w.flow) != i < STEPS && NonceInv(w, i) && TriesInv(w, i, cuts)
    ensures NonceInv(v, i) && TriesInv(v, i, cuts) && v.flow.steps[i].attempts == w.flow.steps[i].attempts
  {
  }

  lemma TriesCut(w: World, l: Label, i: nat, cuts: nat)
    requires OrderInv(w) && WorkInv(w) && Enabled(ALL, w, l) && i < STEPS && NonceInv(w, i) && TriesInv(w, i, cuts)
    requires FirstOpen(w.flow) == i && (FromOutside(l) || l.PlanThrows?)
    ensures TriesFollow(w, Apply(ALL, w, l), l, i, cuts)
  {
  }

  lemma TriesOnTick(w: World, l: Label, i: nat, cuts: nat)
    requires OrderInv(w) && WorkInv(w) && Enabled(ALL, w, l) && i < STEPS && NonceInv(w, i) && TriesInv(w, i, cuts)
    requires FirstOpen(w.flow) == i && OfTick(l)
    ensures TriesFollow(w, Apply(ALL, w, l), l, i, cuts)
  {
  }

  lemma TriesOnAttempt(w: World, l: Label, i: nat, cuts: nat)
    requires OrderInv(w) && WorkInv(w) && Enabled(ALL, w, l) && i < STEPS && NonceInv(w, i) && TriesInv(w, i, cuts)
    requires FirstOpen(w.flow) == i && !FromOutside(l) && !l.PlanThrows? && !OfTick(l)
    ensures TriesFollow(w, Apply(ALL, w, l), l, i, cuts)
  {
    AttemptHolds(w, l, i);
    NoCutInAttempt(w, l, i);
  }

  lemma NoCutInAttempt(w: World, l: Label, i: nat)
    requires !FromOutside(l) && !l.PlanThrows? && !OfTick(l)
    ensures Cut(w, l, i) == 0 && One(Starting(i)(w, l)) == 0
  {
  }

  /** An attempt keeps its number and, while the step is pending or in doubt, its worker and its nonce. */
  lemma AttemptHolds(w: World, l: Label, i: nat)
    requires OrderInv(w) && WorkInv(w) && Enabled(ALL, w, l) && i < STEPS && NonceInv(w, i) && FirstOpen(w.flow) == i
    requires !FromOutside(l) && !l.PlanThrows? && !OfTick(l)
    ensures var v := Apply(ALL, w, l);
            && At(v, i) && NonceInv(v, i) && v.flow.steps[i].attempts == w.flow.steps[i].attempts
            && (v.flow.steps[i].status.Pending? ==> Busy(v, i))
  {
  }

  lemma {:induction false} TriesOverRun(w: World, run: seq<Label>, i: nat, cuts: nat)
    requires OrderInv(w) && WorkInv(w) && Legal(ALL, w, run) && i < STEPS && NonceInv(w, i) && TriesInv(w, i, cuts)
    ensures var v := Run(ALL, w, run);
            && At(v, i) && NonceInv(v, i) && TriesInv(v, i, cuts + CutShort(w, run, i))
            && v.flow.steps[i].attempts == w.flow.steps[i].attempts + Starts(w, run, i)
    decreases |run|
  {
    if run != [] {
      var v := Apply(ALL, w, run[0]);
      TriesStep(w, run[0], i, cuts);
      ShapeStep(ALL, w, run[0]);
      TriesOverRun(v, run[1..], i, cuts + Cut(w, run[0], i));
    }
  }

  /** In every run `attempts` counts the starts of a step, and they exceed the limit by no more than the attempts cut short. */
  lemma TriesBounded(w: World, run: seq<Label>, i: nat)
    requires Initial(w) && Legal(ALL, w, run) && i < STEPS
    ensures var v := Run(ALL, w, run);
            && At(v, i) && v.flow.steps[i].attempts == Starts(w, run, i) <= MAX_ATTEMPTS + CutShort(w, run, i)
  {
    InitialShape(w);
    TriesOverRun(w, run, i, 0);
  }

  /** The branch for a step in doubt without a nonce is never taken. */
  lemma NeverUnpinned(w: World, run: seq<Label>)
    requires Initial(w) && Legal(ALL, w, run)
    ensures !Enabled(ALL, Run(ALL, w, run), Unpinned)
  {
    InitialShape(w);
    ShapeKept(ALL, w, run);
    var f := Run(ALL, w, run).flow;
    if FirstOpen(f) < STEPS { TriesOverRun(w, run, FirstOpen(f), 0); }
  }

  // ---- Each kind of cut repeats without end ----

  /** At rest before its first step, which may hold an unused nonce. */
  ghost predicate Again(w: World, v: World, n: nat) {
    && Initial(w) && Due(v) && OnlyStep(w, v, 0) && v.chain == w.chain
    && v.flow.steps[0] == FRESH.(attempts := n, nonce := v.flow.steps[0].nonce)
  }

  /** The cuts of the step are of the kinds in the set. */
  ghost predicate Permitted(w: World, run: seq<Label>, i: nat, kinds: set<Kind>)
    requires Legal(ALL, w, run)
  {
    Count(ALL, w, run, CuttingBut(kinds, i)) == 0
  }

  ghost predicate OnlyKind(w: World, run: seq<Label>, kind: Kind)
    requires Legal(ALL, w, run)
  {
    Permitted(w, run, 0, {kind})
  }

  /** The label cuts no attempt, or in the kind allowed. */
  predicate Keeps(w: World, l: Label, kind: Kind) {
    (kind.Throws? || !l.PlanThrows?) && (kind.Returns? || !l.Unused?) && (kind.Dies? || !CrashesPending(w, l, 0))
  }

  /** One more step of a run that keeps to one kind of cut. */
  lemma Take(w: World, run: seq<Label>, l: Label, kind: Kind) returns (longer: seq<Label>, v: World)
    requires Legal(ALL, w, run) && Enabled(ALL, Run(ALL, w, run), l) && OnlyKind(w, run, kind) && Keeps(Run(ALL, w, run), l, kind)
    ensures longer == run + [l] && Legal(ALL, w, longer) && OnlyKind(w, longer, kind)
    ensures v == Run(ALL, w, longer) == Apply(ALL, Run(ALL, w, run), l)
  {
    CountOne(ALL, w, run, l, CuttingBut({kind}, 0));
    longer, v := Extend(ALL, w, run, l);
  }

  lemma AgainStarts(w: World, run: seq<Label>, n: nat, kind: Kind) returns (longer: seq<Label>, v: World)
    requires Legal(ALL, w, run) && OnlyKind(w, run, kind) && Again(w, Run(ALL, w, run), n)
    ensures Legal(ALL, w, longer) && OnlyKind(w, longer, kind) && v == Run(ALL, w, longer)
    ensures v.worker == Planning(0) && Again(w, v.(worker := Idle), n + 1)
  {
    FirstOpenAt(Run(ALL, w, run).flow, 0);
    longer, v := Take(w, run, Start, kind);
  }

  /** From planning to a nonce in hand. */
  lemma AgainPinned(w: World, run: seq<Label>, n: nat) returns (longer: seq<Label>)
    requires Legal(ALL, w, run) && OnlyKind(w, run, Returns) && MonShare(w.flow) > 0
    requires var u := Run(ALL, w, run); u.worker == Planning(0) && Again(w, u.(worker := Idle), n)
    ensures Legal(ALL, w, longer) && OnlyKind(w, longer, Returns)
    ensures var u, v := Run(ALL, w, run), Run(ALL, w, longer);
            v.worker.Pinned? && v.worker.i == 0 && v.worker.nonce == w.chain.admin && v.chain == w.chain && v.flow == u.flow
  {
    var u := Run(ALL, w, run);
    PlanStable(w.flow, u.flow, 0, 0, 0);
    var run1, w1 := Take(w, run, Plan(0, 0), Returns);
    var run2, w2 := Take(w, run1, Pin(w.chain.admin), Returns);
    longer := run2;
  }

  /** The nonce is written, and the process dies before anything is sent under it. */
  lemma AgainWritten(w: World, run: seq<Label>) returns (longer: seq<Label>)
    requires Initial(w) && Legal(ALL, w, run) && OnlyKind(w, run, Returns)
    requires var u := Run(ALL, w, run); u.worker.Pinned? && u.worker.i == 0 && u.worker.nonce == w.chain.admin && u.chain == w.chain && OnlyStep(w, u, 0)
    ensures Legal(ALL, w, longer) && OnlyKind(w, longer, Returns)
    ensures var u, v := Run(ALL, w, run), Run(ALL, w, longer);
            && v.worker.Idle? && v.chain == w.chain && OnlyStep(w, v, 0)
            && v.flow.steps[0] == u.flow.steps[0].(status := Sending, nonce := Some(w.chain.admin))
  {
    var run3, w3 := Take(w, run, WriteAhead, Returns);
    var run4, w4 := Take(w, run3, Crash, Returns);
    longer := run4;
  }

  /** The next tick finds the nonce unused and puts the step back. */
  lemma AgainFree(w: World, run: seq<Label>, n: nat) returns (longer: seq<Label>)
    requires Initial(w) && Legal(ALL, w, run) && OnlyKind(w, run, Returns)
    requires var u := Run(ALL, w, run);
             && u.worker.Idle? && u.chain == w.chain && OnlyStep(w, u, 0)
             && u.flow.steps[0] == FRESH.(status := Sending, attempts := n, nonce := Some(w.chain.admin))
    ensures Legal(ALL, w, longer) && OnlyKind(w, longer, Returns) && Again(w, Run(ALL, w, longer), n)
  {
    var u := Run(ALL, w, run);
    FirstOpenAt(u.flow, 0);
    var v;
    longer, v := Take(w, run, Unused, Returns);
    assert Forget(u.chain.txs, Admin, w.chain.admin) == [];
  }

  lemma AgainReturns(w: World, run: seq<Label>, n: nat) returns (longer: seq<Label>)
    requires Legal(ALL, w, run) && OnlyKind(w, run, Returns) && MonShare(w.flow) > 0
    requires var u := Run(ALL, w, run); u.worker == Planning(0) && Again(w, u.(worker := Idle), n)
    ensures Legal(ALL, w, longer) && OnlyKind(w, longer, Returns) && Again(w, Run(ALL, w, longer), n)
  {
    var run2 := AgainPinned(w, run, n);
    var run4 := AgainWritten(w, run2);
    longer := AgainFree(w, run4, n);
  }

  /** For each kind of cut, and for every n, a run with that kind alone starts the first step n times, and it is due again. */
  lemma {:induction false} TriesWithoutEnd(w: World, n: nat, kind: Kind) returns (run: seq<Label>)
    requires Initial(w) && MonShare(w.flow) > 0
    ensures Legal(ALL, w, run) && OnlyKind(w, run, kind) && Again(w, Run(ALL, w, run), n)
    decreases n
  {
    run := [];
    if n > 0 {
      run := TriesWithoutEnd(w, n - 1, kind);
      var u;
      run, u := AgainStarts(w, run, n - 1, kind);
      match kind
      case Throws => run, u := Take(w, run, PlanThrows, kind);
      case Dies => run, u := Take(w, run, Crash, kind);
      case Returns => run := AgainReturns(w, run, n);
    }
  }

  /** No step is started more than MAX_ATTEMPTS times in any run whose cuts are of the kinds allowed. */
  ghost predicate WithinLimit(w: World, kinds: set<Kind>) {
    forall run: seq<Label>, i: nat :: i < STEPS && Legal(ALL, w, run) && Permitted(w, run, i, kinds) ==> Starts(w, run, i) <= MAX_ATTEMPTS
  }

  /** The limit holds exactly when no attempt may be cut short, in any of the three ways. */
  lemma LimitHoldsExactly(w: World, kinds: set<Kind>)
    requires Initial(w) && MonShare(w.flow) > 0
    ensures WithinLimit(w, kinds) <==> kinds == {}
  {
    if kinds == {} {
      forall run: seq<Label>, i: nat | i < STEPS && Legal(ALL, w, run) && Permitted(w, run, i, kinds)
        ensures Starts(w, run, i) <= MAX_ATTEMPTS
      {
        TriesBounded(w, run, i);
      }
    } else {
      var kind :| kind in kinds;
      var run := TriesWithoutEnd(w, MAX_ATTEMPTS + 1, kind);
      TriesBounded(w, run, 0);
      CountsLess(ALL, w, run, CuttingBut(kinds, 0), CuttingBut({kind}, 0));
      assert Permitted(w, run, 0, kinds);
    }
  }

  // ---- A flow that waits for a person ----

  predicate CrashesInReview(w: World, l: Label) { l.Crash? && w.worker.Reviewing? }

  /** Marked for review, still running, and nobody at work on it. */
  ghost predicate Stranded(w: World) {
    && WellFormed(w.flow) && w.flow.status.Running? && w.worker.Idle?
    && FirstOpen(w.flow) < STEPS && w.flow.steps[FirstOpen(w.flow)].status.NeedsReview?
  }

  /** No tick acts on such a flow again. */
  lemma {:induction false} StrandedForGood(a: Assumptions, w: World, run: seq<Label>)
    requires Stranded(w) && Legal(a, w, run)
    ensures Run(a, w, run).flow == w.flow && Stranded(Run(a, w, run)) && Count(a, w, run, CrashesInReview) == 0
    decreases |run|
  {
    if run != [] {
      assert Apply(a, w, run[0]).flow == w.flow && Apply(a, w, run[0]).worker.Idle?;
      StrandedForGood(a, Apply(a, w, run[0]), run[1..]);
    }
  }

  lemma ReviewStep(a: Assumptions, w: World, l: Label)
    requires OrderInv(w) && WorkInv(w) && Enabled(a, w, l) && !Stranded(w)
    ensures Stranded(Apply(a, w, l)) <==> CrashesInReview(w, l)
  {
    if FromOutside(l) { ReviewOutside(a, w, l); } else { ReviewInside(a, w, l); }
  }

  lemma ReviewOutside(a: Assumptions, w: World, l: Label)
    requires OrderInv(w) && WorkInv(w) && Enabled(a, w, l) && !Stranded(w) && FromOutside(l)
    ensures Stranded(Apply(a, w, l)) <==> CrashesInReview(w, l)
  {
    assert Apply(a, w, l).flow == w.flow;
  }

  /** Every write of the mark leaves the worker on the step, and closing takes the flow with it. */
  lemma ReviewInside(a: Assumptions, w: World, l: Label)
    requires OrderInv(w) && WorkInv(w) && Enabled(a, w, l) && !Stranded(w) && !FromOutside(l)
    ensures !Stranded(Apply(a, w, l))
  {
    var v := Apply(a, w, l);
    OpenStep(a, w, l);
    ShapeStep(a, w, l);
    if Stranded(v) {
      ReviewIsOpen(w, v);
      MarkedInside(a, w, l);
    }
  }

  lemma ReviewIsOpen(w: World, v: World)
    requires OrderInv(w) && OpenMoves(w, v) && Stranded(v)
    ensures FirstOpen(w.flow) < STEPS && v.flow.steps[FirstOpen(w.flow)].status.NeedsReview?
  {
    assert FirstOpen(w.flow) < FirstOpen(v.flow) ==> Untouched(w.flow.steps[FirstOpen(v.flow)]);
  }

  lemma MarkedInside(a: Assumptions, w: World, l: Label)
    requires OrderInv(w) && WorkInv(w) && Enabled(a, w, l) && !FromOutside(l) && FirstOpen(w.flow) < STEPS
    requires w.worker.Idle? ==> !(w.flow.status.Running? && w.flow.steps[FirstOpen(w.flow)].status.NeedsReview?)
    ensures var v := Apply(a, w, l);
            WellFormed(v.flow) && v.worker.Idle? && v.flow.steps[FirstOpen(w.flow)].status.NeedsReview? ==> !v.flow.status.Running?
  {
    if OfTick(l) { MarkedOnTick(a, w, l); }
  }

  lemma MarkedOnTick(a: Assumptions, w: World, l: Label)
    requires OrderInv(w) && WorkInv(w) && Enabled(a, w, l) && OfTick(l) && FirstOpen(w.flow) < STEPS
    requires w.worker.Idle? ==> !(w.flow.status.Running? && w.flow.steps[FirstOpen(w.flow)].status.NeedsReview?)
    ensures var v := Apply(a, w, l);
            WellFormed(v.flow) && v.worker.Idle? && v.flow.steps[FirstOpen(w.flow)].status.NeedsReview? ==> !v.flow.status.Running?
  {
  }

  lemma {:induction false} StrandedOverRun(a: Assumptions, w: World, run: seq<Label>)
    requires OrderInv(w) && WorkInv(w) && Legal(a, w, run) && !Stranded(w)
    ensures Stranded(Run(a, w, run)) <==> Count(a, w, run, CrashesInReview) > 0
    decreases |run|
  {
    if run != [] {
      var v := Apply(a, w, run[0]);
      ReviewStep(a, w, run[0]);
      ShapeStep(a, w, run[0]);
      if Stranded(v) { StrandedForGood(a, v, run[1..]); } else { StrandedOverRun(a, v, run[1..]); }
    }
  }

  /** A step of the flow waits for a person while no worker holds it. */
  ghost predicate Waits(w: World) {
    w.worker.Idle? && exists i :: 0 <= i < |w.flow.steps| && w.flow.steps[i].status.NeedsReview?
  }

  /**
   In every run a flow that waits for a person is closed exactly when the process did not die between the
   review mark and the closing write. One that is not closed is never touched again.
   */
  lemma StrandedExactly(a: Assumptions, w: World, run: seq<Label>)
    requires Initial(w) && Legal(a, w, run)
    ensures var v := Run(a, w, run);
            && (Waits(v) && !v.flow.status.Abandoned? <==> Count(a, w, run, CrashesInReview) > 0)
            && (Waits(v) && !v.flow.status.Abandoned? ==>
                  forall more: seq<Label> :: Legal(a, v, more) ==> Run(a, v, more).flow == v.flow)
  {
    InitialShape(w);
    ShapeKept(a, w, run);
    StrandedOverRun(a, w, run);
    var v := Run(a, w, run);
    if Waits(v) {
      var i :| 0 <= i < |v.flow.steps| && v.flow.steps[i].status.NeedsReview?;
      FirstOpenIs(v, i);
      if v.flow.status.Running? {
        forall more: seq<Label> | Legal(a, v, more) ensures Run(a, v, more).flow == v.flow {
          StrandedForGood(a, v, more);
        }
      }
    }
  }

  /** A run from every new flow that ends there, for want of one more write. */
  lemma ReviewCrashStrands(w: World) returns (run: seq<Label>)
    requires Initial(w) && MonShare(w.flow) > 0
    ensures Legal(ALL, w, run) && Stranded(Run(ALL, w, run)) && Landings(Run(ALL, w, run).chain, SWAP_MON) == 1
  {
    InitialShape(w);
    var run0 := LandsUnrecorded(w);
    FirstOpenAt(Run(ALL, w, run0).flow, SWAP_MON);
    var run1, w1 := Extend(ALL, w, run0, Spent);
    FirstOpenAt(w1.flow, SWAP_MON);
    var run2, w2 := Extend(ALL, w, run1, Crash);
    run := run2;
  }

  /** The swap lands and the process dies before its hash is written. */
  lemma LandsUnrecorded(w: World) returns (run: seq<Label>)
    requires Ready(w, SWAP_MON, 0, 0) && w.chain.txs == [] && w.flow.steps[SWAP_MON] == FRESH
    ensures Legal(ALL, w, run)
    ensures var v := Run(ALL, w, run);
            && v.worker.Idle? && OnlyStep(w, v, SWAP_MON) && v.flow.steps[SWAP_MON] == InSending(w, SWAP_MON)
            && v.chain.admin == w.chain.admin + 1 && Landings(v.chain, SWAP_MON) == 1
  {
    run := Launch(ALL, w, SWAP_MON, 0, 0);
    LaunchLandsNothing(w.chain, Run(ALL, w, run).chain, SWAP_MON, Run(ALL, w, run).chain.txs[0]);
    run := MineNext(ALL, w, run, 0, true);
    var v;
    run, v := Extend(ALL, w, run, Crash);
  }
}

/** At most once on chain: exactly when it holds, and what it costs when it does not. */
module FlowLandingTheorems {
  import opened Options
  import opened FlowModel
  import opened FlowTheorems
  import opened FlowLandings

  // ---- Bounds over runs ----

  lemma {:induction false} InvKept(w: World, run: seq<Label>, i: nat, b: nat)
    requires Inv(w, i, b, false) && Legal(ALL, w, run)
    ensures Inv(Run(ALL, w, run), i, b, false)
    decreases |run|
  {
    if run != [] {
      StepKeeps(w, run[0], i, b, false);
      InvKept(Apply(ALL, w, run[0]), run[1..], i, b);
    }
  }

  lemma InvBounds(w: World, i: nat, b: nat, guarded: bool)
    requires Inv(w, i, b, guarded)
    ensures Landings(w.chain, i) <= Worst(b)
  {
    AliveBounded(w, i, b, guarded);
    LandedWithinAlive(w.chain, i, |w.chain.txs|);
  }

  lemma InitialInv(w: World, i: nat, b: nat, guarded: bool)
    requires Initial(w) && i < STEPS && (if guarded then b >= MAX_ATTEMPTS else b <= 1)
    ensures Inv(w, i, b, guarded)
  {
    InitialShape(w);
  }

  /** Whatever is mined, reverted or lost, no step succeeds more than four times. */
  lemma AtMostFour(w: World, run: seq<Label>, i: nat)
    requires Initial(w) && Legal(ALL, w, run) && i < STEPS
    ensures Landings(Run(ALL, w, run).chain, i) <= MAX_ATTEMPTS - 1
  {
    InitialInv(w, i, 1, false);
    InvKept(w, run, i, 1);
    InvBounds(Run(ALL, w, run), i, 1, false);
  }

  // ---- Runs that never broadcast over an older hash ----

  /** Whenever step i is written ahead of a broadcast, the document holds no earlier hash of it. */
  ghost predicate HashFree(w: World, run: seq<Label>, i: nat)
    requires Legal(ALL, w, run)
    decreases |run|
  {
    run != [] ==> !Unsafe(w, run[0], i) && HashFree(Apply(ALL, w, run[0]), run[1..], i)
  }

  lemma {:induction false} GuardedKept(w: World, run: seq<Label>, i: nat)
    requires Inv(w, i, MAX_ATTEMPTS, true) && Legal(ALL, w, run) && HashFree(w, run, i)
    ensures Inv(Run(ALL, w, run), i, MAX_ATTEMPTS, true)
    decreases |run|
  {
    if run != [] {
      StepKeeps(w, run[0], i, MAX_ATTEMPTS, true);
      GuardedKept(Apply(ALL, w, run[0]), run[1..], i);
    }
  }

  /** Over every crash schedule, a step whose every broadcast starts with no recorded hash succeeds on chain at most once. */
  lemma OnceWithoutOldHash(w: World, run: seq<Label>, i: nat)
    requires Initial(w) && Legal(ALL, w, run) && HashFree(w, run, i) && i < STEPS
    ensures Landings(Run(ALL, w, run).chain, i) <= 1
  {
    InitialInv(w, i, MAX_ATTEMPTS, true);
    GuardedKept(w, run, i);
    InvBounds(Run(ALL, w, run), i, MAX_ATTEMPTS, true);
  }

  /** No transaction of the run is mined as a revert. */
  ghost predicate NoReverts(run: seq<Label>) { forall k :: 0 <= k < |run| && run[k].Mine? ==> run[k].ok }

  ghost predicate NoneReverted(c: Chain) { forall k :: 0 <= k < |c.txs| ==> !c.txs[k].fate.Reverted? }

  lemma NoRevertStep(w: World, l: Label, i: nat)
    requires Inv(w, i, MAX_ATTEMPTS, true) && NoneReverted(w.chain) && Enabled(ALL, w, l) && (l.Mine? ==> l.ok)
    ensures !Unsafe(w, l, i) && NoneReverted(Apply(ALL, w, l).chain)
  {
    if l.WriteAhead? && FirstOpen(w.flow) == i { NothingStale(w, i); }
    if !l.Mine? && !l.Foreign? && !l.Unused? && !l.Send? { SameTransactions(w, l); } else { NoneRevertedStays(w, l); }
  }

  /** A pending step holds a hash only of a transaction that reverted. */
  lemma NothingStale(w: World, i: nat)
    requires Inv(w, i, MAX_ATTEMPTS, true) && NoneReverted(w.chain) && w.flow.steps[i].status.Pending?
    ensures w.flow.steps[i].txHash.None?
  {
  }

  lemma NoneRevertedStays(w: World, l: Label)
    requires NoneReverted(w.chain) && Enabled(ALL, w, l) && (l.Mine? || l.Foreign? || l.Unused? || l.Send?) && (l.Mine? ==> l.ok)
    ensures NoneReverted(Apply(ALL, w, l).chain)
  {
  }

  /** Only a revert leaves an old hash behind. */
  lemma {:induction false} NoRevertsHashFree(w: World, run: seq<Label>, i: nat)
    requires Inv(w, i, MAX_ATTEMPTS, true) && NoneReverted(w.chain) && Legal(ALL, w, run) && NoReverts(run)
    ensures HashFree(w, run, i)
    decreases |run|
  {
    if run != [] {
      NoRevertStep(w, run[0], i);
      StepKeeps(w, run[0], i, MAX_ATTEMPTS, true);
      NoRevertsHashFree(Apply(ALL, w, run[0]), run[1..], i);
    }
  }

  /** Every run without reverts, from every new flow: each step succeeds on chain at most once. */
  ghost predicate AtMostOnce(a: Assumptions) {
    forall w: World, run: seq<Label>, i: nat :: Initial(w) && Legal(a, w, run) && NoReverts(run) && i < STEPS ==>
      Landings(Run(a, w, run).chain, i) <= 1
  }

  lemma AllSuffice()
    ensures AtMostOnce(ALL)
  {
    forall w: World, run: seq<Label>, i: nat | Initial(w) && Legal(ALL, w, run) && NoReverts(run) && i < STEPS
      ensures Landings(Run(ALL, w, run).chain, i) <= 1
    {
      InitialInv(w, i, MAX_ATTEMPTS, true);
      NoRevertsHashFree(w, run, i);
      OnceWithoutOldHash(w, run, i);
    }
  }

  // ---- Building runs ----

  /** Nothing is cut short, nothing reverts, and every short order is answered. */
  predicate QuietLabel(l: Label) {
    (l.Mine? ==> l.ok) && !l.Crash? && !l.PlanThrows? && !l.Unused? && !l.Unpinned? && !l.ResolveOk? && l != Submit(Unacknowledged)
  }

  ghost predicate Quiet(run: seq<Label>) { forall k :: 0 <= k < |run| ==> QuietLabel(run[k]) }

  lemma {:induction false} LandedSame(c: Chain, d: Chain, i: nat, n: nat)
    requires n <= |c.txs| && n <= |d.txs|
    requires forall k :: 0 <= k < n ==> d.txs[k].step == c.txs[k].step && (d.txs[k].fate.Landed? <==> c.txs[k].fate.Landed?)
    ensures LandedBefore(d, i, n) == LandedBefore(c, i, n)
  {
    if n > 0 { LandedSame(c, d, i, n - 1); }
  }

  lemma {:induction false} LandedMore(c: Chain, d: Chain, i: nat, h: nat, n: nat)
    requires h < n <= |c.txs| == |d.txs| && c.txs[h].step == i && !c.txs[h].fate.Landed?
    requires d.txs == c.txs[h := c.txs[h].(fate := Landed)]
    ensures LandedBefore(d, i, n) == LandedBefore(c, i, n) + 1
  {
    if h == n - 1 { LandedSame(c, d, i, n - 1); } else { LandedMore(c, d, i, h, n - 1); }
  }

  /** The next tick will start chain step i and find something to send. */
  ghost predicate Ready(w: World, i: nat, held: nat, allowance: nat) {
    Due(w) && FirstOpen(w.flow) == i < SHORT && Startable(w.flow.steps[i]) && PlanFor(w.flow, i, held, allowance).Some?
  }

  /** v differs from w in the state of step i alone. */
  ghost predicate OnlyStep(w: World, v: World, i: nat) {
    At(w, i) && WellFormed(v.flow) && v.flow == w.flow.(steps := w.flow.steps[i := v.flow.steps[i]])
  }

  lemma StillReady(w: World, v: World, i: nat, held: nat, allowance: nat)
    requires Ready(w, i, held, allowance) && OnlyStep(w, v, i) && v.worker.Idle? && Startable(v.flow.steps[i])
    ensures Ready(v, i, held, allowance)
  {
    FirstOpenAt(v.flow, i);
    PlanStable(w.flow, v.flow, i, held, allowance);
  }

  /** The step as the write before the broadcast leaves it. */
  ghost function InSending(w: World, i: nat): Step
    requires At(w, i)
  {
    w.flow.steps[i].(status := Sending, attempts := w.flow.steps[i].attempts + 1, nonce := Some(Latest(w.chain, SignerOf(i))))
  }

  lemma PlanAfterStart(a: Assumptions, w: World, i: nat, held: nat, allowance: nat) returns (run: seq<Label>)
    requires Ready(w, i, held, allowance)
    ensures Legal(a, w, run) && Quiet(run)
    ensures var v := Run(a, w, run);
            && OnlyStep(w, v, i) && v.chain == w.chain && v.worker == Planned(i, PlanFor(w.flow, i, held, allowance).value)
            && v.flow.steps[i] == w.flow.steps[i].(status := Pending, attempts := w.flow.steps[i].attempts + 1)
  {
    var run1, w1 := Extend(a, w, [], Start);
    PlanStable(w.flow, w1.flow, i, held, allowance);
    var run2, w2 := Extend(a, w, run1, Plan(held, allowance));
    run := run2;
  }

  /** From a step that is ready to the write before its broadcast, under the account's next nonce. */
  lemma Prepare(a: Assumptions, w: World, i: nat, held: nat, allowance: nat) returns (run: seq<Label>)
    requires Ready(w, i, held, allowance)
    ensures Legal(a, w, run) && Quiet(run)
    ensures var v := Run(a, w, run);
            && OnlyStep(w, v, i) && v.flow.steps[i] == InSending(w, i) && v.chain == w.chain
            && v.worker == Broadcasting(i, PlanFor(w.flow, i, held, allowance).value, Latest(w.chain, SignerOf(i)))
  {
    var run2 := PlanAfterStart(a, w, i, held, allowance);
    var run3, w3 := Extend(a, w, run2, Pin(Latest(w.chain, SignerOf(i))));
    var run4, w4 := Extend(a, w, run3, WriteAhead);
    run := run4;
  }

  /** The same, and broadcast. */
  lemma Launch(a: Assumptions, w: World, i: nat, held: nat, allowance: nat) returns (run: seq<Label>)
    requires Ready(w, i, held, allowance)
    ensures Legal(a, w, run) && Quiet(run)
    ensures var v := Run(a, w, run);
            && OnlyStep(w, v, i) && v.flow.steps[i] == InSending(w, i)
            && v.worker == Broadcast(i, PlanFor(w.flow, i, held, allowance).value, |w.chain.txs|)
            && v.chain == w.chain.(txs := w.chain.txs + [Tx(i, Latest(w.chain, SignerOf(i)), InFlight)])
  {
    var before := Prepare(a, w, i, held, allowance);
    var after, v := Extend(a, w, before, Send);
    run := after;
  }

  /** The transaction numbered h, next in line for its account, is mined. */
  lemma MineNext(a: Assumptions, w: World, run: seq<Label>, h: nat, ok: bool) returns (longer: seq<Label>)
    requires Legal(a, w, run) && Enabled(a, Run(a, w, run), Mine(h, ok))
    ensures longer == run + [Mine(h, ok)] && Legal(a, w, longer) && Run(a, w, longer) == Apply(a, Run(a, w, run), Mine(h, ok))
    ensures var c := Run(a, w, run).chain;
            Landings(Run(a, w, longer).chain, c.txs[h].step) == Landings(c, c.txs[h].step) + (if ok then 1 else 0)
  {
    var v;
    var c := Run(a, w, run).chain;
    longer, v := Extend(a, w, run, Mine(h, ok));
    if ok { LandedMore(c, v.chain, c.txs[h].step, h, |c.txs|); } else { LandedSame(c, v.chain, c.txs[h].step, |c.txs|); }
  }

  lemma LaunchLandsNothing(c: Chain, d: Chain, i: nat, t: Tx)
    requires d.txs == c.txs + [t] && t.fate.InFlight?
    ensures Landings(d, i) == Landings(c, i)
  {
    LandedSame(c, d, i, |c.txs|);
  }

  /** One attempt that succeeds on chain. */
  lemma Land(a: Assumptions, w: World, i: nat, held: nat, allowance: nat) returns (run: seq<Label>)
    requires Ready(w, i, held, allowance)
    ensures Legal(a, w, run) && Quiet(run) && Landings(Run(a, w, run).chain, i) == Landings(w.chain, i) + 1
  {
    run := Launch(a, w, i, held, allowance);
    LaunchLandsNothing(w.chain, Run(a, w, run).chain, i, Run(a, w, run).chain.txs[|w.chain.txs|]);
    run := MineNext(a, w, run, |w.chain.txs|, true);
  }

  /** After a crash the tick reads the step's hash, finds a revert there, and marks the step failed. */
  lemma CrashAndBlame(w: World, run: seq<Label>, i: nat) returns (longer: seq<Label>)
    requires Legal(ALL, w, run)
    requires var u := Run(ALL, w, run);
             && At(u, i) && FirstOpen(u.flow) == i && u.flow.status.Running?
             && (u.flow.steps[i].status.Sending? || u.flow.steps[i].status.Sent?) && Stale(u, i)
    ensures Legal(ALL, w, longer)
    ensures var u, v := Run(ALL, w, run), Run(ALL, w, longer);
            && v.worker.Idle? && v.chain == u.chain && v.flow == u.flow.(steps := u.flow.steps[i := u.flow.steps[i].(status := Failed)])
  {
    var run1, w1 := Extend(ALL, w, run, Crash);
    var run2, w2 := Extend(ALL, w, run1, Resolve);
    var run3, w3 := Extend(ALL, w, run2, ResolveThrows);
    longer := run3;
  }

  /** Launched, and the hash written; the transaction is next in line. */
  lemma LaunchRecorded(w: World, i: nat, held: nat, allowance: nat) returns (run: seq<Label>)
    requires Ready(w, i, held, allowance)
    ensures Legal(ALL, w, run) && Quiet(run)
    ensures var v := Run(ALL, w, run);
            && OnlyStep(w, v, i) && v.flow.steps[i] == InSending(w, i).(status := Sent, txHash := Some(|w.chain.txs|))
            && v.worker == Waiting(i, PlanFor(w.flow, i, held, allowance).value, |w.chain.txs|)
            && v.chain == w.chain.(txs := w.chain.txs + [Tx(i, Latest(w.chain, SignerOf(i)), InFlight)])
            && Landings(v.chain, i) == Landings(w.chain, i)
  {
    var run0 := Launch(ALL, w, i, held, allowance);
    var v;
    run, v := Extend(ALL, w, run0, RecordHash);
    LaunchLandsNothing(w.chain, v.chain, i, v.chain.txs[|w.chain.txs|]);
  }

  /** The recorded transaction reverts and the process dies: the next tick blames it. */
  lemma RevertedAndBlamed(w: World, run: seq<Label>, i: nat, h: nat) returns (longer: seq<Label>)
    requires Legal(ALL, w, run)
    requires var u := Run(ALL, w, run);
             && At(u, i) && FirstOpen(u.flow) == i && u.flow.status.Running? && u.flow.steps[i].status.Sent? && u.flow.steps[i].txHash == Some(h)
             && Enabled(ALL, u, Mine(h, false)) && u.chain.txs[h].step == i
    ensures Legal(ALL, w, longer)
    ensures var u, v := Run(ALL, w, run), Run(ALL, w, longer);
            && v.worker.Idle? && v.flow == u.flow.(steps := u.flow.steps[i := u.flow.steps[i].(status := Failed)])
            && Stale(v, i) && Landings(v.chain, i) == Landings(u.chain, i)
  {
    var mined := MineNext(ALL, w, run, h, false);
    longer := CrashAndBlame(w, mined, i);
  }

  /** An attempt whose transaction reverts: the step is failed and keeps that hash. */
  lemma Revert(w: World, i: nat, held: nat, allowance: nat) returns (run: seq<Label>)
    requires Ready(w, i, held, allowance)
    ensures Legal(ALL, w, run)
    ensures var v := Run(ALL, w, run);
            && OnlyStep(w, v, i) && v.worker.Idle? && Stale(v, i) && Landings(v.chain, i) == Landings(w.chain, i)
            && v.flow.steps[i].status.Failed? && v.flow.steps[i].attempts == w.flow.steps[i].attempts + 1
  {
    var run0 := LaunchRecorded(w, i, held, allowance);
    FirstOpenAt(Run(ALL, w, run0).flow, i);
    run := RevertedAndBlamed(w, run0, i, |w.chain.txs|);
  }

  /** An attempt that succeeds on chain, crashes before its hash is written, and is judged by the older, reverted one. */
  lemma LandAndBlame(w: World, i: nat, held: nat, allowance: nat) returns (run: seq<Label>)
    requires Ready(w, i, held, allowance) && Stale(w, i)
    ensures Legal(ALL, w, run)
    ensures var v := Run(ALL, w, run);
            && OnlyStep(w, v, i) && v.worker.Idle? && Stale(v, i) && Landings(v.chain, i) == Landings(w.chain, i) + 1
            && v.flow.steps[i].status.Failed? && v.flow.steps[i].attempts == w.flow.steps[i].attempts + 1
  {
    var h := |w.chain.txs|;
    run := Launch(ALL, w, i, held, allowance);
    LaunchLandsNothing(w.chain, Run(ALL, w, run).chain, i, Run(ALL, w, run).chain.txs[h]);
    run := MineNext(ALL, w, run, h, true);
    FirstOpenAt(Run(ALL, w, run).flow, i);
    run := CrashAndBlame(w, run, i);
  }

  /** An attempt that succeeds on chain, its hash written and its receipt awaited. */
  lemma LandAndRecord(w: World, i: nat, held: nat, allowance: nat) returns (run: seq<Label>)
    requires Ready(w, i, held, allowance)
    ensures Legal(ALL, w, run) && Quiet(run)
    ensures var v := Run(ALL, w, run);
            && OnlyStep(w, v, i) && v.chain.orders == w.chain.orders && Landings(v.chain, i) == Landings(w.chain, i) + 1
            && v.worker == Waiting(i, PlanFor(w.flow, i, held, allowance).value, |w.chain.txs|)
            && |v.chain.txs| == |w.chain.txs| + 1 && v.chain.txs[|w.chain.txs|].fate.Landed?
            && v.flow.steps[i] == InSending(w, i).(status := Sent, txHash := Some(|w.chain.txs|))
  {
    var run0 := LaunchRecorded(w, i, held, allowance);
    run := MineNext(ALL, w, run0, |w.chain.txs|, true);
  }

  /** Repeat until the attempts run out: one landing per attempt left. */
  lemma {:induction false} LandRepeatedly(w: World, i: nat, held: nat, allowance: nat) returns (run: seq<Label>)
    requires Ready(w, i, held, allowance) && Stale(w, i) && w.flow.steps[i].attempts < MAX_ATTEMPTS
    ensures Legal(ALL, w, run)
    ensures Landings(Run(ALL, w, run).chain, i) == Landings(w.chain, i) + (MAX_ATTEMPTS - w.flow.steps[i].attempts)
    decreases MAX_ATTEMPTS - w.flow.steps[i].attempts
  {
    run := LandAndBlame(w, i, held, allowance);
    var v := Run(ALL, w, run);
    if v.flow.steps[i].attempts < MAX_ATTEMPTS {
      StillReady(w, v, i, held, allowance);
      var rest := LandRepeatedly(v, i, held, allowance);
      RunConcat(ALL, w, run, rest);
      run := run + rest;
    }
  }

  /** Four is reached: one revert, then every remaining attempt lands and is judged by the reverted hash. */
  lemma FourReached(w: World) returns (run: seq<Label>)
    requires Initial(w) && MonShare(w.flow) > 0
    ensures Legal(ALL, w, run) && Landings(Run(ALL, w, run).chain, SWAP_MON) == MAX_ATTEMPTS - 1
  {
    InitialShape(w);
    run := Revert(w, SWAP_MON, 0, 0);
    var v := Run(ALL, w, run);
    StillReady(w, v, SWAP_MON, 0, 0);
    var rest := LandRepeatedly(v, SWAP_MON, 0, 0);
    RunConcat(ALL, w, run, rest);
    run := run + rest;
  }

  // ---- Exactly when a step is safe to try ----

  ghost predicate LandsOnceFrom(w: World, i: nat) {
    forall run: seq<Label> :: Legal(ALL, w, run) ==> Landings(Run(ALL, w, run).chain, i) <= 1
  }

  lemma SafeFrom(w: World, i: nat, held: nat, allowance: nat)
    requires Ready(w, i, held, allowance) && OrderInv(w) && ChainInv(w.chain) && AliveCount(w.chain, i) == 0
    requires w.flow.steps[i].txHash.None? || Stale(w, i)
    requires w.flow.steps[i].attempts >= (if w.flow.steps[i].txHash.None? then MAX_ATTEMPTS - 2 else MAX_ATTEMPTS - 1)
    ensures LandsOnceFrom(w, i)
  {
    var s := w.flow.steps[i];
    var b := if s.txHash.None? then s.attempts + 1 else s.attempts;
    assert Inv(w, i, b, false);
    forall run: seq<Label> | Legal(ALL, w, run) ensures Landings(Run(ALL, w, run).chain, i) <= 1 {
      InvKept(w, run, i, b);
      InvBounds(Run(ALL, w, run), i, b, false);
    }
  }

  lemma TwiceFrom(w: World, i: nat, held: nat, allowance: nat) returns (run: seq<Label>)
    requires Ready(w, i, held, allowance)
    requires w.flow.steps[i].txHash.None? || Stale(w, i)
    requires w.flow.steps[i].attempts < (if w.flow.steps[i].txHash.None? then MAX_ATTEMPTS - 2 else MAX_ATTEMPTS - 1)
    ensures Legal(ALL, w, run) && Landings(Run(ALL, w, run).chain, i) >= 2
  {
    if Stale(w, i) {
      run := LandRepeatedly(w, i, held, allowance);
    } else {
      run := Revert(w, i, held, allowance);
      var v := Run(ALL, w, run);
      StillReady(w, v, i, held, allowance);
      var rest := LandRepeatedly(v, i, held, allowance);
      RunConcat(ALL, w, run, rest);
      run := run + rest;
    }
  }

  // A transaction that landed, or still can, counts with the next attempt.

  lemma {:induction false} SomeAlive(c: Chain, i: nat, n: nat) returns (h: nat)
    requires n <= |c.txs| && AliveBefore(c, i, -1, n) > 0
    ensures h < n && Alive(c, c.txs[h], i)
  {
    if Alive(c, c.txs[n - 1], i) { h := n - 1; } else { h := SomeAlive(c, i, n - 1); }
  }

  lemma {:induction false} LandedCounts(c: Chain, i: nat, h: nat, n: nat)
    requires h < n <= |c.txs| && c.txs[h].step == i && c.txs[h].fate.Landed?
    ensures LandedBefore(c, i, n) >= 1
  {
    if h < n - 1 { LandedCounts(c, i, h, n - 1); }
  }

  function Ahead(c: Chain, s: Signer, n: nat): Chain {
    if s.Admin? then c.(admin := c.admin + n) else c.(manager := c.manager + n)
  }

  /** The account's next n nonces go to other transactions. */
  lemma {:induction false} Overtake(w: World, s: Signer, n: nat) returns (run: seq<Label>)
    ensures Legal(ALL, w, run) && Run(ALL, w, run) == w.(chain := Ahead(w.chain, s, n))
    decreases n
  {
    run := [];
    if n > 0 {
      run := Overtake(w, s, n - 1);
      var v;
      run, v := Extend(ALL, w, run, Foreign(s));
    }
  }

  /** Whatever can still land does, and nothing of the document moves. */
  lemma AliveLands(w: World, i: nat, h: nat) returns (run: seq<Label>)
    requires h < |w.chain.txs| && Alive(w.chain, w.chain.txs[h], i)
    ensures Legal(ALL, w, run)
    ensures var v := Run(ALL, w, run); v.flow == w.flow && v.worker == w.worker && Landings(v.chain, i) >= 1
  {
    var t := w.chain.txs[h];
    if t.fate.Landed? {
      run := [];
      LandedCounts(w.chain, i, h, |w.chain.txs|);
    } else {
      run := Overtake(w, SignerOf(i), t.nonce - Latest(w.chain, SignerOf(i)));
      run := MineNext(ALL, w, run, h, true);
    }
  }

  lemma AliveThenAgain(w: World, i: nat, held: nat, allowance: nat) returns (run: seq<Label>)
    requires Ready(w, i, held, allowance) && AliveCount(w.chain, i) > 0
    ensures Legal(ALL, w, run) && Landings(Run(ALL, w, run).chain, i) >= 2
  {
    var h := SomeAlive(w.chain, i, |w.chain.txs|);
    run := AliveLands(w, i, h);
    var rest := Land(ALL, Run(ALL, w, run), i, held, allowance);
    RunConcat(ALL, w, run, rest);
    run := run + rest;
  }

  /** The attempts are nearly spent: three used if the step holds no hash, four if it holds one. */
  ghost predicate NearlySpent(s: Step) { s.attempts >= (if s.txHash.None? then MAX_ATTEMPTS - 2 else MAX_ATTEMPTS - 1) }

  /**
   In every state a run can reach, a chain step about to be tried lands at most once over all that follows, earlier
   landings included, exactly when nothing of it has landed or still can and its attempts are nearly spent. The
   write before the broadcast would have to drop the old hash for this to hold from the start.
   */
  lemma OnceExactlyWhenSpent(start: World, past: seq<Label>, i: nat, held: nat, allowance: nat)
    requires Initial(start) && Legal(ALL, start, past) && Ready(Run(ALL, start, past), i, held, allowance)
    ensures var w := Run(ALL, start, past);
            LandsOnceFrom(w, i) <==> AliveCount(w.chain, i) == 0 && NearlySpent(w.flow.steps[i])
  {
    var w := Run(ALL, start, past);
    InitialInv(start, i, 1, false);
    InvKept(start, past, i, 1);
    if AliveCount(w.chain, i) > 0 {
      var run := AliveThenAgain(w, i, held, allowance);
    } else if NearlySpent(w.flow.steps[i]) {
      SafeFrom(w, i, held, allowance);
    } else {
      var run := TwiceFrom(w, i, held, allowance);
    }
  }

  // ---- Every assumption is needed ----

  /** A flow that sells 1 USDC for MON on an empty chain. */
  const SMALL := World(NewFlow(10_000, 5_000), Chain(0, 0, [], []), Idle)

  /** With one assumption gone, a first attempt lands and the step is nevertheless tried again. */
  lemma LandsUnseen(a: Assumptions) returns (run: seq<Label>)
    requires a != ALL
    ensures Legal(a, SMALL, run) && NoReverts(run)
    ensures var v := Run(a, SMALL, run); Landings(v.chain, 0) == 1 && Ready(v, 0, 0, 0)
  {
    InitialShape(SMALL);
    if !a.sendThrowsClean {
      run := SendLostRun(a);
    } else {
      run := Launch(a, SMALL, 0, 0, 0);
      LaunchLandsNothing(SMALL.chain, Run(a, SMALL, run).chain, 0, Run(a, SMALL, run).chain.txs[0]);
      if !a.unusedIsFinal { run := LateLanding(a, run); }
      else if !a.writesHold { run := HashLost(a, run); }
      else {
        run := LandedAndRecorded(a, run);
        if !a.confirmIsHonest { run := ReceiptMissed(a, run); } else { run := ResultMissed(a, run); }
      }
    }
  }

  /** The first attempt in flight, its hash not written yet. */
  ghost predicate FirstInFlight(v: World) {
    && v.flow == SMALL.flow.(steps := SMALL.flow.steps[0 := FRESH.(status := Sending, attempts := 1, nonce := Some(0))])
    && v.worker.Broadcast? && v.worker.i == 0 && v.worker.hash == 0
    && v.chain == SMALL.chain.(txs := [Tx(0, 0, InFlight)]) && Landings(v.chain, 0) == 0
  }

  lemma CatchStep(a: Assumptions, u: World)
    requires u.worker == Caught(0) && OnlyStep(SMALL, u, 0) && !u.flow.steps[0].status.Done?
    ensures Enabled(a, u, Catch)
    ensures var v := Apply(a, u, Catch);
            && OnlyStep(SMALL, v, 0) && v.chain == u.chain && v.worker == Closing(0)
            && v.flow.steps[0] == u.flow.steps[0].(status := Failed)
  {
  }

  lemma FailedIsReady(v: World)
    requires v.worker.Idle? && OnlyStep(SMALL, v, 0) && v.flow.steps[0].status.Failed? && v.flow.steps[0].attempts == 1
    ensures Ready(v, 0, 0, 0)
  {
    FirstOpenAt(SMALL.flow, 0);
    StillReady(SMALL, v, 0, 0, 0);
  }

  /** The first attempt threw, with the step not done. */
  ghost predicate FirstCaught(u: World) {
    u.worker == Caught(0) && OnlyStep(SMALL, u, 0) && u.flow.steps[0].attempts == 1 && !u.flow.steps[0].status.Done?
  }

  /** The error path writes `failed`, and the attempts are not spent. */
  lemma CatchAndClose(a: Assumptions, run: seq<Label>) returns (longer: seq<Label>)
    requires Legal(a, SMALL, run) && NoReverts(run) && FirstCaught(Run(a, SMALL, run))
    ensures Legal(a, SMALL, longer) && NoReverts(longer)
    ensures var v := Run(a, SMALL, longer); v.chain == Run(a, SMALL, run).chain && Ready(v, 0, 0, 0)
  {
    CatchStep(a, Run(a, SMALL, run));
    var run1, w1 := Extend(a, SMALL, run, Catch);
    var run2, w2 := Extend(a, SMALL, run1, Close);
    longer := run2;
    FailedIsReady(w2);
  }

  lemma LateLanding(a: Assumptions, launched: seq<Label>) returns (run: seq<Label>)
    requires !a.unusedIsFinal && Legal(a, SMALL, launched) && NoReverts(launched) && FirstInFlight(Run(a, SMALL, launched))
    ensures Legal(a, SMALL, run) && NoReverts(run)
    ensures var v := Run(a, SMALL, run); Landings(v.chain, 0) == 1 && Ready(v, 0, 0, 0)
  {
    var run2 := PutBackInFlight(a, launched);
    run := MineNext(a, SMALL, run2, 0, true);
    FirstOpenAt(SMALL.flow, 0);
    StillReady(SMALL, Run(a, SMALL, run), 0, 0, 0);
  }

  /** The process dies, the nonce looks unused, and the step is pending again with its transaction still in flight. */
  lemma PutBackInFlight(a: Assumptions, launched: seq<Label>) returns (run: seq<Label>)
    requires !a.unusedIsFinal && Legal(a, SMALL, launched) && NoReverts(launched) && FirstInFlight(Run(a, SMALL, launched))
    ensures Legal(a, SMALL, run) && NoReverts(run)
    ensures var v := Run(a, SMALL, run);
            && v.worker.Idle? && OnlyStep(SMALL, v, 0) && v.flow.steps[0].status.Pending? && v.flow.steps[0].attempts == 1
            && v.chain == SMALL.chain.(txs := [Tx(0, 0, InFlight)]) && Landings(v.chain, 0) == 0
  {
    FirstOpenAt(Run(a, SMALL, launched).flow, 0);
    var run1, w1 := Extend(a, SMALL, launched, Crash);
    var run2, w2 := Extend(a, SMALL, run1, Unused);
    run := run2;
  }

  lemma HashLost(a: Assumptions, launched: seq<Label>) returns (run: seq<Label>)
    requires !a.writesHold && Legal(a, SMALL, launched) && NoReverts(launched) && FirstInFlight(Run(a, SMALL, launched))
    ensures Legal(a, SMALL, run) && NoReverts(run)
    ensures var v := Run(a, SMALL, run); Landings(v.chain, 0) == 1 && Ready(v, 0, 0, 0)
  {
    var run2 := LandedHashLost(a, launched);
    run := CatchAndClose(a, run2);
  }

  lemma LandedHashLost(a: Assumptions, launched: seq<Label>) returns (run: seq<Label>)
    requires !a.writesHold && Legal(a, SMALL, launched) && NoReverts(launched) && FirstInFlight(Run(a, SMALL, launched))
    ensures Legal(a, SMALL, run) && NoReverts(run) && FirstCaught(Run(a, SMALL, run)) && Landings(Run(a, SMALL, run).chain, 0) == 1
  {
    var run1 := MineNext(a, SMALL, launched, 0, true);
    var v;
    run, v := Extend(a, SMALL, run1, HashWriteFails);
  }

  /** The first attempt landed, its hash is written, and the receipt is awaited. */
  ghost predicate FirstRecorded(v: World) {
    && Landings(v.chain, 0) == 1 && v.worker.Waiting? && v.worker.i == 0 && v.worker.hash == 0
    && OnlyStep(SMALL, v, 0) && v.flow.steps[0].status.Sent? && v.flow.steps[0].attempts == 1
    && |v.chain.txs| == 1 && v.chain.txs[0].fate.Landed?
  }

  lemma LandedAndRecorded(a: Assumptions, launched: seq<Label>) returns (run: seq<Label>)
    requires Legal(a, SMALL, launched) && NoReverts(launched) && FirstInFlight(Run(a, SMALL, launched))
    ensures Legal(a, SMALL, run) && NoReverts(run) && FirstRecorded(Run(a, SMALL, run))
  {
    var run1 := MineNext(a, SMALL, launched, 0, true);
    var run2, w2 := Extend(a, SMALL, run1, RecordHash);
    run := run2;
  }

  lemma ReceiptMissed(a: Assumptions, recorded: seq<Label>) returns (run: seq<Label>)
    requires !a.confirmIsHonest && Legal(a, SMALL, recorded) && NoReverts(recorded) && FirstRecorded(Run(a, SMALL, recorded))
    ensures Legal(a, SMALL, run) && NoReverts(run)
    ensures var v := Run(a, SMALL, run); Landings(v.chain, 0) == 1 && Ready(v, 0, 0, 0)
  {
    var run1, w1 := Extend(a, SMALL, recorded, ReceiptLost);
    run := CatchAndClose(a, run1);
  }

  lemma ResultMissed(a: Assumptions, recorded: seq<Label>) returns (run: seq<Label>)
    requires !a.settleHolds && Legal(a, SMALL, recorded) && NoReverts(recorded) && FirstRecorded(Run(a, SMALL, recorded))
    ensures Legal(a, SMALL, run) && NoReverts(run)
    ensures var v := Run(a, SMALL, run); Landings(v.chain, 0) == 1 && Ready(v, 0, 0, 0)
  {
    var run2 := SettlingThrows(a, recorded);
    run := CatchAndClose(a, run2);
  }

  lemma SettlingThrows(a: Assumptions, recorded: seq<Label>) returns (run: seq<Label>)
    requires !a.settleHolds && Legal(a, SMALL, recorded) && NoReverts(recorded) && FirstRecorded(Run(a, SMALL, recorded))
    ensures Legal(a, SMALL, run) && NoReverts(run) && FirstCaught(Run(a, SMALL, run)) && Run(a, SMALL, run).chain == Run(a, SMALL, recorded).chain
  {
    var run1, w1 := Extend(a, SMALL, recorded, Receipt);
    var run2, w2 := Extend(a, SMALL, run1, SettleThrows);
    run := run2;
  }

  lemma LostAndMined(a: Assumptions, before: seq<Label>) returns (run: seq<Label>)
    requires !a.sendThrowsClean && Legal(a, SMALL, before) && NoReverts(before)
    requires var u := Run(a, SMALL, before);
             && u.worker.Broadcasting? && u.worker.i == 0 && u.worker.nonce == 0 && u.chain == SMALL.chain
             && OnlyStep(SMALL, u, 0) && u.flow.steps[0] == FRESH.(status := Sending, attempts := 1, nonce := Some(0))
    ensures Legal(a, SMALL, run) && NoReverts(run)
    ensures var v := Run(a, SMALL, run);
            Landings(v.chain, 0) == 1 && v.worker == Caught(0) && v.flow == Run(a, SMALL, before).flow
  {
    var run1, w1 := Extend(a, SMALL, before, SendLost);
    LaunchLandsNothing(SMALL.chain, w1.chain, 0, w1.chain.txs[0]);
    run := MineNext(a, SMALL, run1, 0, true);
  }

  lemma SendLostRun(a: Assumptions) returns (run: seq<Label>)
    requires !a.sendThrowsClean
    ensures Legal(a, SMALL, run) && NoReverts(run)
    ensures var v := Run(a, SMALL, run); Landings(v.chain, 0) == 1 && Ready(v, 0, 0, 0)
  {
    InitialShape(SMALL);
    var run1 := Prepare(a, SMALL, 0, 0, 0);
    var run2 := LostAndMined(a, run1);
    run := CatchAndClose(a, run2);
  }

  lemma LandsTwice(a: Assumptions) returns (run: seq<Label>)
    requires a != ALL
    ensures Legal(a, SMALL, run) && NoReverts(run) && Landings(Run(a, SMALL, run).chain, 0) == 2
  {
    run := LandsUnseen(a);
    var rest := Land(a, Run(a, SMALL, run), 0, 0, 0);
    RunConcat(a, SMALL, run, rest);
    run := run + rest;
  }

  /** At most once over runs without reverts holds under all five assumptions and under no fewer. */
  lemma OnceExactlyUnderAll(a: Assumptions)
    ensures AtMostOnce(a) <==> a == ALL
  {
    if a == ALL {
      AllSuffice();
    } else {
      var run := LandsTwice(a);
      assert Initial(SMALL);
    }
  }
}

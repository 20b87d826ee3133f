/** How often a step's transaction can succeed on chain, over every crash schedule. */
module FlowLandings {
  import opened Options
  import opened FlowModel
  import opened FlowTheorems

  // ---- Counting ----

  /** Landed, or still able to land: in flight under a nonce its account has not passed. */
  ghost predicate Alive(c: Chain, t: Tx, i: nat) {
    t.step == i && (t.fate.Landed? || (t.fate.InFlight? && t.nonce >= Latest(c, SignerOf(i))))
  }

  /** How many transactions of step i are alive among the first n, leaving out the one numbered `skip`. */
  ghost function AliveBefore(c: Chain, i: nat, skip: int, n: nat): nat
    requires n <= |c.txs|
  {
    if n == 0 then 0 else AliveBefore(c, i, skip, n - 1) + (if n - 1 != skip && Alive(c, c.txs[n - 1], i) then 1 else 0)
  }

  ghost function AliveBut(c: Chain, i: nat, skip: int): nat { AliveBefore(c, i, skip, |c.txs|) }

  ghost function AliveCount(c: Chain, i: nat): nat { AliveBut(c, i, -1) }

  ghost function LandedBefore(c: Chain, i: nat, n: nat): nat
    requires n <= |c.txs|
  {
    if n == 0 then 0 else LandedBefore(c, i, n - 1) + (if c.txs[n - 1].step == i && c.txs[n - 1].fate.Landed? then 1 else 0)
  }

  /** Successful transactions of step i on chain. */
  ghost function Landings(c: Chain, i: nat): nat { LandedBefore(c, i, |c.txs|) }

  lemma {:induction false} LandedWithinAlive(c: Chain, i: nat, n: nat)
    requires n <= |c.txs|
    ensures LandedBefore(c, i, n) <= AliveBefore(c, i, -1, n)
  {
    if n > 0 { LandedWithinAlive(c, i, n - 1); }
  }

  lemma {:induction false} AliveShrinks(c: Chain, d: Chain, i: nat, skip: int, n: nat)
    requires n <= |c.txs| && |c.txs| == |d.txs|
    requires forall k :: 0 <= k < n && k != skip && Alive(d, d.txs[k], i) ==> Alive(c, c.txs[k], i)
    ensures AliveBefore(d, i, skip, n) <= AliveBefore(c, i, skip, n)
  {
    if n > 0 { AliveShrinks(c, d, i, skip, n - 1); }
  }

  lemma {:induction false} AliveSkip(c: Chain, i: nat, h: nat, n: nat)
    requires n <= |c.txs| && h < |c.txs|
    ensures AliveBefore(c, i, -1, n) == AliveBefore(c, i, h, n) + (if h < n && Alive(c, c.txs[h], i) then 1 else 0)
  {
    if n > 0 { AliveSkip(c, i, h, n - 1); }
  }

  lemma {:induction false} AliveNone(c: Chain, i: nat, skip: int, n: nat)
    requires n <= |c.txs| && forall k :: 0 <= k < n ==> !Alive(c, c.txs[k], i)
    ensures AliveBefore(c, i, skip, n) == 0
  {
    if n > 0 { AliveNone(c, i, skip, n - 1); }
  }

  lemma {:induction false} NoneAlive(c: Chain, i: nat, n: nat, k: nat)
    requires k < n <= |c.txs| && AliveBefore(c, i, -1, n) == 0
    ensures !Alive(c, c.txs[k], i)
  {
    if k < n - 1 { NoneAlive(c, i, n - 1, k); }
  }

  lemma {:induction false} AliveAppend(c: Chain, d: Chain, i: nat, skip: int, n: nat)
    requires n <= |c.txs| <= |d.txs| && d.txs[..|c.txs|] == c.txs && c.admin == d.admin && c.manager == d.manager
    ensures AliveBefore(d, i, skip, n) == AliveBefore(c, i, skip, n)
  {
    if n > 0 {
      AliveAppend(c, d, i, skip, n - 1);
      assert d.txs[n - 1] == c.txs[n - 1];
    }
  }

  /** A mined transaction used a nonce its account has passed. */
  ghost predicate ChainInv(c: Chain) {
    forall k :: 0 <= k < |c.txs| && (c.txs[k].fate.Landed? || c.txs[k].fate.Reverted?) ==> c.txs[k].nonce < Latest(c, SignerOf(c.txs[k].step))
  }

  // ---- The budget of a step ----

  ghost function Pos(n: int): nat { if n < 0 then 0 else n }

  /**
   `b` is the earliest attempt that may leave a reverted hash behind. From the next attempt on, a crash
   after the broadcast is resolved against that old hash, so each such attempt may add a landing.
   */
  ghost function Earlier(attempts: nat, b: nat): nat { Pos(AtMost(attempts - 1, MAX_ATTEMPTS - 1) - b) }

  ghost function Worst(b: nat): nat { AtLeast(1, MAX_ATTEMPTS - b) }

  ghost function AfterFailure(attempts: nat, b: nat): nat {
    if attempts >= MAX_ATTEMPTS then Worst(b) else Pos(attempts - b)
  }

  /** The hash the step holds belongs to an earlier attempt, and that transaction reverted. */
  ghost predicate Stale(w: World, i: nat)
    requires At(w, i)
  {
    w.flow.steps[i].txHash.Some? && IsReverted(w.chain, w.flow.steps[i].txHash.value, i)
  }

  ghost predicate IsReverted(c: Chain, h: nat, i: nat) { h < |c.txs| && c.txs[h].step == i && c.txs[h].fate.Reverted? }

  ghost predicate Busy(w: World, i: nat) { Working(w.worker) == Some(i) }

  ghost predicate Resting(w: World, i: nat, b: nat, guarded: bool)
    requires At(w, i)
  {
    var s := w.flow.steps[i];
    if s.txHash.None?
    then AliveCount(w.chain, i) == 0 && (guarded || s.attempts + (if Busy(w, i) then 0 else 1) >= b)
    else Stale(w, i) && AliveCount(w.chain, i) <= Earlier(s.attempts, b) && (guarded || s.attempts >= b + (if Busy(w, i) then 1 else 0))
  }

  ghost predicate AfterFailing(w: World, i: nat, b: nat, guarded: bool)
    requires At(w, i)
  {
    var s := w.flow.steps[i];
    if s.txHash.None?
    then AliveCount(w.chain, i) == 0 && (guarded || s.attempts + 1 >= b)
    else Stale(w, i) && AliveCount(w.chain, i) <= AfterFailure(s.attempts, b) && (guarded || s.attempts >= b)
  }

  ghost predicate OneNonce(w: World, i: nat)
    requires At(w, i)
  {
    forall k :: 0 <= k < |w.chain.txs| && Alive(w.chain, w.chain.txs[k], i) ==> Some(w.chain.txs[k].nonce) == w.flow.steps[i].nonce
  }

  ghost function Base(w: World, i: nat, b: nat): nat
    requires At(w, i)
  {
    if w.flow.steps[i].txHash.None? then 0 else Earlier(w.flow.steps[i].attempts, b)
  }

  ghost predicate InDoubtInv(w: World, i: nat, b: nat, guarded: bool)
    requires At(w, i)
  {
    var s, k := w.flow.steps[i], w.worker;
    && s.nonce.Some?
    && (s.txHash.Some? ==> Stale(w, i) && !guarded)
    && (guarded || s.attempts >= b + (if s.txHash.Some? then 1 else 0))
    && (s.txHash.None? ==> OneNonce(w, i))
    && (if Busy(w, i) && (k.Broadcasting? || k.Caught?) then AliveCount(w.chain, i) <= Base(w, i, b)
        else if Busy(w, i) && k.Broadcast? then k.hash < |w.chain.txs| && AliveBut(w.chain, i, k.hash) <= Base(w, i, b)
        else AliveCount(w.chain, i) <= Base(w, i, b) + 1)
  }

  ghost predicate SentInv(w: World, i: nat, b: nat, guarded: bool)
    requires At(w, i)
  {
    var s, k := w.flow.steps[i], w.worker;
    && s.txHash.Some? && s.txHash.value < |w.chain.txs| && w.chain.txs[s.txHash.value].step == i
    && AliveBut(w.chain, i, s.txHash.value) <= Earlier(s.attempts, b)
    && (guarded || s.attempts >= b)
    && (Busy(w, i) && k.Caught? ==> Stale(w, i))
  }

  ghost predicate StepInv(w: World, i: nat, b: nat, guarded: bool)
    requires At(w, i)
  {
    match w.flow.steps[i].status
    case Pending => Resting(w, i, b, guarded)
    case Sending => InDoubtInv(w, i, b, guarded)
    case Sent => SentInv(w, i, b, guarded)
    case Failed => AfterFailing(w, i, b, guarded)
    case Done => AliveCount(w.chain, i) <= Worst(b)
    case NeedsReview => AliveCount(w.chain, i) <= 1
  }

  ghost predicate Inv(w: World, i: nat, b: nat, guarded: bool) {
    OrderInv(w) && WorkInv(w) && ChainInv(w.chain) && i < STEPS && StepInv(w, i, b, guarded) && (guarded ==> b >= MAX_ATTEMPTS)
  }

  // ---- The chain moving ----

  ghost predicate Moves(l: Label) { l.Mine? || l.Foreign? || l.Unused? }

  /** What mining does to step i: nothing new can land, and a revert stays a revert. */
  ghost predicate Narrows(c: Chain, d: Chain, i: nat) {
    && |d.txs| == |c.txs|
    && (forall k :: 0 <= k < |c.txs| ==> d.txs[k].nonce == c.txs[k].nonce && d.txs[k].step == c.txs[k].step)
    && (forall k :: 0 <= k < |c.txs| && Alive(d, d.txs[k], i) ==> Alive(c, c.txs[k], i))
    && (forall k :: 0 <= k < |c.txs| && c.txs[k].fate.Reverted? ==> d.txs[k].fate.Reverted?)
  }

  lemma MovesNarrow(w: World, l: Label, i: nat)
    requires Enabled(ALL, w, l) && Moves(l)
    ensures Narrows(w.chain, Apply(ALL, w, l).chain, i)
  {
  }

  lemma NarrowShrinks(c: Chain, d: Chain, i: nat, skip: int)
    requires Narrows(c, d, i)
    ensures AliveBut(d, i, skip) <= AliveBut(c, i, skip)
  {
    AliveShrinks(c, d, i, skip, |c.txs|);
  }

  lemma ChainStep(w: World, l: Label)
    requires ChainInv(w.chain) && Enabled(ALL, w, l)
    ensures ChainInv(Apply(ALL, w, l).chain)
  {
  }

  lemma NarrowKeeps(w: World, d: Chain, i: nat, b: nat, guarded: bool)
    requires At(w, i) && StepInv(w, i, b, guarded) && Narrows(w.chain, d, i)
    ensures StepInv(w.(chain := d), i, b, guarded)
  {
    NarrowShrinks(w.chain, d, i, -1);
    var s := w.flow.steps[i];
    if s.txHash.Some? { NarrowShrinks(w.chain, d, i, s.txHash.value); }
    if w.worker.Broadcast? { NarrowShrinks(w.chain, d, i, w.worker.hash); }
  }

  /** Mining, and the account's other transactions, only narrow what can still land. */
  lemma MiningKeeps(w: World, l: Label, i: nat, b: nat, guarded: bool)
    requires Inv(w, i, b, guarded) && Enabled(ALL, w, l) && (l.Mine? || l.Foreign?)
    ensures Inv(Apply(ALL, w, l), i, b, guarded)
  {
    ShapeStep(ALL, w, l);
    ChainStep(w, l);
    MovesNarrow(w, l, i);
    NarrowKeeps(w, Apply(ALL, w, l).chain, i, b, guarded);
  }

  // ---- Steps on another step of the flow ----

  lemma OtherKeeps(w: World, l: Label, i: nat, b: nat, guarded: bool)
    requires Inv(w, i, b, guarded) && Enabled(ALL, w, l) && !l.Mine? && !l.Foreign?
    requires FirstOpen(w.flow) != i
    ensures Inv(Apply(ALL, w, l), i, b, guarded)
  {
    var v := Apply(ALL, w, l);
    ShapeStep(ALL, w, l);
    ChainStep(w, l);
    OpenStep(ALL, w, l);
    OtherAlive(w, l, i);
    DoneOrUntouched(w, i);
    ApartKeeps(w, v, i, b, guarded);
  }

  /** A step before the one in hand is done and one after it is untouched. */
  lemma DoneOrUntouched(w: World, i: nat)
    requires OrderInv(w) && i < STEPS && FirstOpen(w.flow) != i
    ensures w.flow.steps[i].status.Done? || w.flow.steps[i] == FRESH
  {
    if FirstOpen(w.flow) < i { assert Untouched(w.flow.steps[i]); }
  }

  /** What a label on another step leaves of this one's transactions. */
  lemma OtherAlive(w: World, l: Label, i: nat)
    requires OrderInv(w) && WorkInv(w) && Enabled(ALL, w, l) && !l.Mine? && !l.Foreign? && FirstOpen(w.flow) != i
    ensures AliveCount(Apply(ALL, w, l).chain, i) <= AliveCount(w.chain, i)
  {
    var v := Apply(ALL, w, l);
    if l.Unused? {
      MovesNarrow(w, l, i);
      NarrowShrinks(w.chain, v.chain, i, -1);
    } else if l.Send? {
      AliveAppend(w.chain, v.chain, i, -1, |w.chain.txs|);
    } else {
      SameTransactions(w, l);
      AliveAppend(w.chain, v.chain, i, -1, |w.chain.txs|);
    }
  }

  lemma SameTransactions(w: World, l: Label)
    requires Enabled(ALL, w, l) && !l.Mine? && !l.Foreign? && !l.Unused? && !l.Send?
    ensures var c, d := w.chain, Apply(ALL, w, l).chain; d.txs == c.txs && d.admin == c.admin && d.manager == c.manager
  {
  }

  lemma ApartKeeps(w: World, v: World, i: nat, b: nat, guarded: bool)
    requires Inv(w, i, b, guarded) && OrderInv(v) && WorkInv(v) && ChainInv(v.chain) && OpenMoves(w, v) && FirstOpen(w.flow) != i
    requires w.flow.steps[i].status.Done? || w.flow.steps[i] == FRESH
    requires AliveCount(v.chain, i) <= AliveCount(w.chain, i)
    ensures Inv(v, i, b, guarded)
  {
  }

  // ---- Steps on the step itself ----

  lemma SendKeeps(w: World, i: nat, b: nat, guarded: bool)
    requires Inv(w, i, b, guarded) && Enabled(ALL, w, Send) && FirstOpen(w.flow) == i
    ensures Inv(Apply(ALL, w, Send), i, b, guarded)
  {
    var v := Apply(ALL, w, Send);
    ShapeStep(ALL, w, Send);
    ChainStep(w, Send);
    var n := |w.chain.txs|;
    AliveAppend(w.chain, v.chain, i, -1, n);
    SkipBeyond(w.chain, i, n, n);
    AliveAppend(w.chain, v.chain, i, n, n);
    assert v.chain.txs[..n] == w.chain.txs;
    if w.flow.steps[i].txHash.None? {
      forall k | 0 <= k < n + 1 && Alive(v.chain, v.chain.txs[k], i) ensures Some(v.chain.txs[k].nonce) == v.flow.steps[i].nonce {
        if k < n {
          assert v.chain.txs[k] == w.chain.txs[k];
        }
      }
    }
    if Stale(w, i) {
      assert v.chain.txs[w.flow.steps[i].txHash.value] == w.chain.txs[w.flow.steps[i].txHash.value];
    }
  }

  lemma {:induction false} SkipBeyond(c: Chain, i: nat, skip: nat, n: nat)
    requires n <= |c.txs| && skip >= n
    ensures AliveBefore(c, i, skip, n) == AliveBefore(c, i, -1, n)
  {
    if n > 0 { SkipBeyond(c, i, skip, n - 1); }
  }

  lemma UnusedKeeps(w: World, i: nat, b: nat, guarded: bool)
    requires Inv(w, i, b, guarded) && Enabled(ALL, w, Unused) && FirstOpen(w.flow) == i
    ensures Inv(Apply(ALL, w, Unused), i, b, guarded)
  {
    var v := Apply(ALL, w, Unused);
    ShapeStep(ALL, w, Unused);
    ChainStep(w, Unused);
    forall k | 0 <= k < |v.chain.txs| ensures !Alive(v.chain, v.chain.txs[k], i) {
      if Alive(w.chain, w.chain.txs[k], i) {
        assert Some(w.chain.txs[k].nonce) == w.flow.steps[i].nonce;
      }
    }
    AliveNone(v.chain, i, -1, |v.chain.txs|);
  }

  lemma CrashKeeps(w: World, i: nat, b: nat, guarded: bool)
    requires Inv(w, i, b, guarded) && FirstOpen(w.flow) == i
    ensures Inv(Apply(ALL, w, Crash), i, b, guarded)
  {
    ShapeStep(ALL, w, Crash);
    if w.worker.Broadcast? {
      AliveSkip(w.chain, i, w.worker.hash, |w.chain.txs|);
    }
  }

  lemma ResolveKeeps(w: World, l: Label, i: nat, b: nat, guarded: bool)
    requires Inv(w, i, b, guarded) && Enabled(ALL, w, l) && FirstOpen(w.flow) == i
    requires l.ResolveOk? || l.ResolveThrows? || l.Receipt? || l.Settle? || l.Catch?
    ensures Inv(Apply(ALL, w, l), i, b, guarded)
  {
    ShapeStep(ALL, w, l);
    var s := w.flow.steps[i];
    if s.txHash.Some? && s.txHash.value < |w.chain.txs| {
      AliveSkip(w.chain, i, s.txHash.value, |w.chain.txs|);
    }
    if l.ResolveOk? || l.Settle? {
      DoneKeeps(w, l, i, b, guarded);
    } else if l.ResolveThrows? || l.Catch? {
      FailedKeeps(w, l, i, b, guarded);
    } else {
      SameTransactions(w, l);
    }
  }

  lemma DoneKeeps(w: World, l: Label, i: nat, b: nat, guarded: bool)
    requires Inv(w, i, b, guarded) && Enabled(ALL, w, l) && FirstOpen(w.flow) == i && (l.ResolveOk? || l.Settle?)
    ensures At(Apply(ALL, w, l), i) && StepInv(Apply(ALL, w, l), i, b, guarded)
  {
    var s := w.flow.steps[i];
    AliveBounded(w, i, b, guarded);
    SameTransactions(w, l);
    AliveAppend(w.chain, Apply(ALL, w, l).chain, i, -1, |w.chain.txs|);
  }

  lemma FailedKeeps(w: World, l: Label, i: nat, b: nat, guarded: bool)
    requires Inv(w, i, b, guarded) && Enabled(ALL, w, l) && FirstOpen(w.flow) == i && (l.ResolveThrows? || l.Catch?)
    requires var s := w.flow.steps[i];
             s.txHash.Some? && s.txHash.value < |w.chain.txs| ==>
               AliveBut(w.chain, i, s.txHash.value) == AliveCount(w.chain, i) - (if Alive(w.chain, w.chain.txs[s.txHash.value], i) then 1 else 0)
    ensures At(Apply(ALL, w, l), i) && StepInv(Apply(ALL, w, l), i, b, guarded)
  {
  }

  lemma AliveBounded(w: World, i: nat, b: nat, guarded: bool)
    requires Inv(w, i, b, guarded)
    ensures AliveCount(w.chain, i) <= Worst(b)
  {
    var n := |w.chain.txs|;
    var s := w.flow.steps[i];
    if s.status.Sent? {
      AliveSkip(w.chain, i, s.txHash.value, n);
    } else if w.worker.Broadcast? && w.worker.hash < n {
      AliveSkip(w.chain, i, w.worker.hash, n);
    }
  }

  /** Starting, closing and the labels that only move the worker. */
  lemma WorkerKeeps(w: World, l: Label, i: nat, b: nat, guarded: bool)
    requires Inv(w, i, b, guarded) && Enabled(ALL, w, l) && FirstOpen(w.flow) == i
    requires l.GiveUp? || l.Resolve? || l.CloseReview? || l.PlanThrows? || l.Pin? || l.SendThrows? || l.Close?
    ensures Inv(Apply(ALL, w, l), i, b, guarded)
  {
    ShapeStep(ALL, w, l);
    if l.GiveUp? || l.CloseReview? || l.Close? { EndKeeps(w, l, i, b, guarded); }
  }

  lemma EndKeeps(w: World, l: Label, i: nat, b: nat, guarded: bool)
    requires Inv(w, i, b, guarded) && Enabled(ALL, w, l) && FirstOpen(w.flow) == i && (l.GiveUp? || l.CloseReview? || l.Close?)
    ensures At(Apply(ALL, w, l), i) && StepInv(Apply(ALL, w, l), i, b, guarded)
  {
  }

  lemma StartKeeps(w: World, i: nat, b: nat, guarded: bool)
    requires Inv(w, i, b, guarded) && Enabled(ALL, w, Start) && FirstOpen(w.flow) == i
    ensures Inv(Apply(ALL, w, Start), i, b, guarded)
  {
    ShapeStep(ALL, w, Start);
  }

  lemma PlanKeeps(w: World, l: Label, i: nat, b: nat, guarded: bool)
    requires Inv(w, i, b, guarded) && Enabled(ALL, w, l) && FirstOpen(w.flow) == i && l.Plan?
    ensures Inv(Apply(ALL, w, l), i, b, guarded)
  {
    ShapeStep(ALL, w, l);
  }

  lemma WriteAheadKeeps(w: World, i: nat, b: nat, guarded: bool)
    requires Inv(w, i, b, guarded) && Enabled(ALL, w, WriteAhead) && FirstOpen(w.flow) == i
    requires guarded ==> w.flow.steps[i].txHash.None?
    ensures Inv(Apply(ALL, w, WriteAhead), i, b, guarded)
  {
    ShapeStep(ALL, w, WriteAhead);
    if w.flow.steps[i].txHash.None? {
      forall k | 0 <= k < |w.chain.txs| ensures !Alive(w.chain, w.chain.txs[k], i) {
        NoneAlive(w.chain, i, |w.chain.txs|, k);
      }
    }
  }

  lemma RecordHashKeeps(w: World, i: nat, b: nat, guarded: bool)
    requires Inv(w, i, b, guarded) && Enabled(ALL, w, RecordHash) && FirstOpen(w.flow) == i
    ensures Inv(Apply(ALL, w, RecordHash), i, b, guarded)
  {
    ShapeStep(ALL, w, RecordHash);
  }

  lemma SpentKeeps(w: World, i: nat, b: nat, guarded: bool)
    requires Inv(w, i, b, guarded) && Enabled(ALL, w, Spent) && FirstOpen(w.flow) == i
    ensures Inv(Apply(ALL, w, Spent), i, b, guarded)
  {
    ShapeStep(ALL, w, Spent);
  }

  lemma ShortKeeps(w: World, l: Label, i: nat, b: nat, guarded: bool)
    requires Inv(w, i, b, guarded) && Enabled(ALL, w, l) && FirstOpen(w.flow) == i
    requires l.ShortSkips? || l.ShortThrows? || l.RecordShort?
    ensures Inv(Apply(ALL, w, l), i, b, guarded)
  {
    ShapeStep(ALL, w, l);
  }

  lemma SubmitKeeps(w: World, l: Label, i: nat, b: nat, guarded: bool)
    requires Inv(w, i, b, guarded) && Enabled(ALL, w, l) && FirstOpen(w.flow) == i && l.Submit?
    ensures Inv(Apply(ALL, w, l), i, b, guarded)
  {
    var v := Apply(ALL, w, l);
    ShapeStep(ALL, w, l);
    ChainStep(w, l);
    AliveAppend(w.chain, v.chain, i, -1, |w.chain.txs|);
  }

  /** A step that is about to be broadcast while it still holds an older hash. */
  ghost predicate Unsafe(w: World, l: Label, i: nat) {
    At(w, i) && l.WriteAhead? && FirstOpen(w.flow) == i && w.flow.steps[i].txHash.Some?
  }

  lemma StepKeeps(w: World, l: Label, i: nat, b: nat, guarded: bool)
    requires Inv(w, i, b, guarded) && Enabled(ALL, w, l) && (guarded ==> !Unsafe(w, l, i))
    ensures Inv(Apply(ALL, w, l), i, b, guarded)
  {
    if l.Mine? || l.Foreign? { MiningKeeps(w, l, i, b, guarded); }
    else if FirstOpen(w.flow) != i { OtherKeeps(w, l, i, b, guarded); }
    else if l.Send? { SendKeeps(w, i, b, guarded); }
    else if l.Unused? { UnusedKeeps(w, i, b, guarded); }
    else if l.Crash? { CrashKeeps(w, i, b, guarded); }
    else if l.ResolveOk? || l.ResolveThrows? || l.Receipt? || l.Settle? || l.Catch? { ResolveKeeps(w, l, i, b, guarded); }
    else if l.Submit? { SubmitKeeps(w, l, i, b, guarded); }
    else if l.Start? { StartKeeps(w, i, b, guarded); }
    else if l.Plan? { PlanKeeps(w, l, i, b, guarded); }
    else if l.WriteAhead? { WriteAheadKeeps(w, i, b, guarded); }
    else if l.RecordHash? { RecordHashKeeps(w, i, b, guarded); }
    else if l.Spent? { SpentKeeps(w, i, b, guarded); }
    else if l.ShortSkips? || l.ShortThrows? || l.RecordShort? { ShortKeeps(w, l, i, b, guarded); }
    else { WorkerKeeps(w, l, i, b, guarded); }
  }
}

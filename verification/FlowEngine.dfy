/** The engine as the backend runs it: a durable document, one tick per call, proved to take only the steps of FlowModel. */
module FlowExecution {
  import opened Options
  import opened FlowModel
  import opened FlowTheorems
  import opened FlowLandings
  import opened FlowLandingTheorems

  datatype Move = Mined(hash: nat, ok: bool) | OtherTx(signer: Signer)

  /**
   What the surroundings do while the engine waits on something: the chain moves, the process may die,
   the call in hand may throw, and whatever it was reading comes back.
   */
  datatype Turn = Turn(moves: seq<Move>, crash: bool, throws: bool, held: nat, allowance: nat, ahead: nat, out: nat, reply: Reply)

  datatype NonceState = UnusedNonce | SpentNonce

  /** The process dies in the await numbered k from here. */
  predicate Dies(schedule: seq<Turn>, k: nat) { k >= |schedule| || schedule[k].crash }

  /** How a tick ended. Died: the process stopped in an await. */
  datatype Outcome =
    | AllDone | InReview | OutOfAttempts | Judged
    | Skips | Threw(turn: Turn) | StepLanded(amount: int, out: nat) | StepReverted
    | OrderPlaced | OrderFailed(reply: Reply)
    | Died

  /** The transactions sent so far stay what they are, whatever becomes of them. */
  ghost predicate SameSends(c: Chain, d: Chain) {
    && |d.txs| == |c.txs| && d.orders == c.orders
    && forall k :: 0 <= k < |c.txs| ==>
         d.txs[k].step == c.txs[k].step && d.txs[k].nonce == c.txs[k].nonce && (c.txs[k].fate.InFlight? || d.txs[k].fate == c.txs[k].fate)
  }

  /** The step as the write before the broadcast leaves it. */
  function Armed(before: Step, nonce: Option<nat>): Step { before.(status := Sending, nonce := nonce) }

  ghost predicate IsSend(t: Tx, i: nat, nonce: Option<nat>) { t.step == i && Some(t.nonce) == nonce }

  /** Some await of the schedule read this output back. */
  ghost predicate ReadBack(schedule: seq<Turn>, out: nat) { exists t :: t in schedule && t.out == out }

  /** From the record of its hash on. */
  ghost predicate Recorded(o: Outcome, sent: Step, after: Step, i: nat, amount: int, n: nat, txs: seq<Tx>, schedule: seq<Turn>) {
    && n < |txs| && IsSend(txs[n], i, sent.nonce)
    && match o
       case StepLanded(moved, out) =>
         moved == amount && txs[n].fate.Landed? && ReadBack(schedule, out)
         && after == sent.(status := Done, result := Some(ResultFor(i, amount, out)))
       case StepReverted => txs[n].fate.Reverted? && after == sent.(status := Failed)
       case Died => after == sent || (txs[n].fate.Reverted? && after == sent.(status := Failed))
       case _ => false
  }

  /** From the broadcast of the transaction numbered n on: what the document says is what became of that transaction. */
  ghost predicate SentResult(o: Outcome, armed: Step, after: Step, i: nat, amount: int, n: nat, txs: seq<Tx>, schedule: seq<Turn>) {
    && n < |txs| && IsSend(txs[n], i, armed.nonce)
    && if Dies(schedule, 0) then o.Died? && after == armed
       else Recorded(o, armed.(status := FlowModel.Status.Sent, txHash := Some(n)), after, i, amount, n, txs, schedule[1..])
  }

  /** From the write before the broadcast on. */
  ghost predicate SendResult(o: Outcome, armed: Step, after: Step, i: nat, amount: int, n: nat, txs: seq<Tx>, schedule: seq<Turn>) {
    if Dies(schedule, 0) then o.Died? && |txs| == n && after == armed
    else if schedule[0].throws then |txs| == n && after == armed.(status := Failed) && o == (if Dies(schedule, 1) then Died else Threw(schedule[0]))
    else |txs| == n + 1 && SentResult(o, armed, after, i, amount, n, txs, schedule[1..])
  }

  /** From the plan on. */
  ghost predicate PlanResult(f: Flow, before: Step, after: Step, i: nat, n: nat, txs: seq<Tx>, o: Outcome, turn: Turn, schedule: seq<Turn>)
    requires WellFormed(f) && i < SHORT
  {
    if turn.throws then o == Threw(turn) && |txs| == n && after == before
    else match PlanFor(f, i, turn.held, turn.allowance)
         case None => o.Skips? && |txs| == n && after == before.(status := Done, result := Some(Skipped))
         case Some(amount) =>
           if Dies(schedule, 0) then o.Died? && |txs| == n && after == before
           else SendResult(o, Armed(before, after.nonce), after, i, amount, n, txs, schedule[1..])
  }

  /** One attempt at a chain step, n transactions sent before it. */
  ghost predicate Attempted(f: Flow, before: Step, after: Step, i: nat, n: nat, txs: seq<Tx>, o: Outcome, schedule: seq<Turn>)
    requires WellFormed(f) && i < SHORT
  {
    if Dies(schedule, 0) then o.Died? && |txs| == n && after == before
    else PlanResult(f, before, after, i, n, txs, o, schedule[0], schedule[1..])
  }

  /** The hedge once its attempt is open. */
  ghost predicate ShortResult(f: Flow, before: Step, after: Step, orders: seq<nat>, orders': seq<nat>, o: Outcome, turn: Turn, schedule: seq<Turn>)
    requires WellFormed(f)
  {
    if StakedOf(f) == 0 then o.Skips? && after == before.(status := Done, result := Some(Skipped)) && orders' == orders
    else if turn.throws || ShortSize(f) == 0 then
      o == (if Dies(schedule, 0) then Died else Threw(turn)) && after == before.(status := Failed) && orders' == orders
    else OrderResult(ShortSize(f), before, after, orders, orders', o, turn.reply, schedule)
  }

  ghost predicate OrderResult(size: nat, before: Step, after: Step, orders: seq<nat>, orders': seq<nat>, o: Outcome, reply: Reply, schedule: seq<Turn>) {
    && orders' == (if reply.Refused? then orders else orders + [size])
    && if !reply.Accepted? then o == (if Dies(schedule, 0) then Died else OrderFailed(reply)) && after == before.(status := Failed)
       else if Dies(schedule, 0) then o.Died? && after == before
       else o.OrderPlaced? && after == before.(status := Done, result := Some(Shorted(size)))
  }

  /** One attempt at the hedge. */
  ghost predicate ShortAttempted(f: Flow, before: Step, after: Step, orders: seq<nat>, orders': seq<nat>, o: Outcome, schedule: seq<Turn>)
    requires WellFormed(f)
  {
    if Dies(schedule, 0) then o.Died? && after == before && orders' == orders
    else ShortResult(f, before, after, orders, orders', o, schedule[0], schedule[1..])
  }

  /** Only step i is written; a failure that uses up the attempts closes the flow, unless the process dies first. */
  ghost predicate Moved(f: Flow, g: Flow, i: nat, o: Outcome) {
    && |f.steps| == |g.steps| == STEPS && i < STEPS
    && var s := g.steps[i];
      g == f.(steps := f.steps[i := s], status := if !o.Died? && s.status.Failed? && s.attempts >= MAX_ATTEMPTS then Abandoned else f.status)
  }

  /** Only step i is written; a step handed to a person closes the flow, unless the process dies first. */
  ghost predicate Ruled(f: Flow, g: Flow, i: nat, o: Outcome) {
    && |f.steps| == |g.steps| == STEPS && i < STEPS
    && g == f.(steps := f.steps[i := g.steps[i]], status := if !o.Died? && g.steps[i].status.NeedsReview? then Abandoned else f.status)
  }

  /** The verdict on an interrupted step. */
  ghost predicate Verdict(c: Chain, d: Chain, i: nat, s: Step, after: Step, o: Outcome, schedule: seq<Turn>) {
    && after == s.(status := after.status)
    && match s.txHash
       case Some(h) =>
         if o.Died? then after == s
         else o.Judged? && h < |d.txs| && ((d.txs[h].fate.Landed? && after.status.Done?) || (d.txs[h].fate.Reverted? && after.status.Failed?))
       case None =>
         if s.nonce.Some? && (if i == APPROVE || i == DEPOSIT then c.manager else c.admin) > s.nonce.value
         then after.status.NeedsReview? && o == (if Dies(schedule, 0) then Died else Judged)
         else o.Judged? && after.status.Pending?
  }

  /** What one tick does to the document and the chain, by the state it finds and what its awaits bring. */
  ghost predicate Ticked(f: Flow, c: Chain, g: Flow, d: Chain, o: Outcome, schedule: seq<Turn>)
    requires WellFormed(f) && WellFormed(g)
  {
    var i := FirstOpen(f);
    if i == STEPS then o.AllDone? && g == f.(status := Completed) && d == c
    else
      var s, after := f.steps[i], g.steps[i];
      var before := s.(status := Pending, attempts := s.attempts + 1);
      if s.status.NeedsReview? then o.InReview? && g == f && d == c
      else if s.status.Failed? && s.attempts >= MAX_ATTEMPTS then o.OutOfAttempts? && g == f.(status := Abandoned) && d == c
      else if s.status.Sending? || s.status.Sent? then Ruled(f, g, i, o) && |d.txs| == |c.txs| && Verdict(c, d, i, s, after, o, schedule)
      else
        && Moved(f, g, i, o)
        && if i == SHORT then |d.txs| == |c.txs| && ShortAttempted(f, before, after, c.orders, d.orders, o, schedule)
           else Attempted(f, before, after, i, |c.txs|, d.txs, o, schedule)
  }

  class FlowEngine {
    // The flow document.
    var flow: Flow
    // The chain and the venue, and what they will do next.
    var chain: Chain
    var turns: seq<Turn>
    // The history of the object: every step since the flow was created.
    ghost const start: World
    ghost var steps: seq<Label>
    ghost var world: World

    ghost predicate Traced()
      reads this
    {
      && Initial(start) && Legal(ALL, start, steps) && world == Run(ALL, start, steps)
      && OrderInv(world) && WorkInv(world)
    }

    ghost predicate Valid()
      reads this
    {
      Traced() && world.flow == flow && world.chain == chain
    }

    ghost predicate Rests()
      reads this
    {
      Valid() && world.worker.Idle?
    }

    /** The surroundings let the process die here. */
    predicate Ended()
      reads this
    {
      Dies(turns, 0)
    }

    constructor (usdcIn: nat, ratioBps: nat, admin: nat, manager: nat)
      ensures Rests() && flow == NewFlow(usdcIn, ratioBps)
    {
      flow, chain, turns := NewFlow(usdcIn, ratioBps), Chain(admin, manager, [], []), [];
      start := World(NewFlow(usdcIn, ratioBps), Chain(admin, manager, [], []), Idle);
      steps := [];
      world := World(NewFlow(usdcIn, ratioBps), Chain(admin, manager, [], []), Idle);
      new;
      InitialShape(start);
    }

    ghost method Record(l: Label)
      requires Traced() && Enabled(ALL, world, l)
      modifies this`steps, this`world
      ensures Traced() && steps == old(steps) + [l] && world == Apply(ALL, old(world), l)
    {
      var longer, v := Extend(ALL, start, steps, l);
      ShapeStep(ALL, world, l);
      steps, world := longer, v;
    }

    /** One atomic write of one step. The label says which write of the protocol it is. */
    method PatchStep(i: nat, s: Step, ghost l: Label)
      requires Traced() && world.flow == flow && At(world, i) && Enabled(ALL, world, l)
      requires Apply(ALL, world, l).flow == flow.(steps := flow.steps[i := s]) && Apply(ALL, world, l).chain == chain
      modifies this`flow, this`steps, this`world
      ensures Valid() && flow == old(flow).(steps := old(flow).steps[i := s])
      ensures steps == old(steps) + [l] && world == Apply(ALL, old(world), l)
    {
      Record(l);
      flow := flow.(steps := flow.steps[i := s]);
    }

    method FinishFlow(status: FlowStatus, ghost l: Label)
      requires Valid() && Enabled(ALL, world, l) && Apply(ALL, world, l) == End(world, status)
      modifies this`flow, this`steps, this`world
      ensures Rests() && flow == old(flow).(status := status) && steps == old(steps) + [l]
    {
      Record(l);
      flow := flow.(status := status);
    }

    /** Other transactions are mined, as the chain pleases; the flow's own keep their nonces. */
    method MoveChain(moves: seq<Move>)
      requires Valid()
      modifies this`chain, this`steps, this`world
      ensures Valid() && world.worker == old(world.worker) && old(steps) <= steps && SameSends(old(chain), chain)
    {
      for m := 0 to |moves|
        invariant Valid() && world.worker == old(world.worker) && old(steps) <= steps && world.flow == old(world.flow)
        invariant SameSends(old(chain), chain)
      {
        match moves[m]
        case Mined(h, ok) =>
          if h < |chain.txs| && chain.txs[h].fate.InFlight? && chain.txs[h].nonce == Latest(chain, SignerOf(chain.txs[h].step)) {
            Record(Mine(h, ok));
            chain := Spend(chain, SignerOf(chain.txs[h].step)).(txs := chain.txs[h := chain.txs[h].(fate := if ok then Landed else Reverted)]);
          }
        case OtherTx(s) =>
          Record(Foreign(s));
          chain := Spend(chain, s);
      }
    }

    /** An await: the next turn of the surroundings, or None when the process dies in it. */
    method Wait() returns (turn: Option<Turn>)
      requires Valid()
      modifies this`chain, this`turns, this`steps, this`world
      ensures Valid() && old(steps) <= steps && SameSends(old(chain), chain)
      ensures turn.None? <==> Dies(old(turns), 0)
      ensures turn.Some? ==> turn.value == old(turns)[0] && turns == old(turns)[1..] && world.worker == old(world.worker)
      ensures turn.None? ==> turns == old(turns) && world.worker.Idle?
    {
      if turns == [] || turns[0].crash {
        Record(Crash);
        return None;
      }
      turn := Some(turns[0]);
      turns := turns[1..];
      MoveChain(turn.value.moves);
    }

    /** Waits for the receipt: true for success, false for a revert, None when the process dies first. */
    method Confirm(hash: nat) returns (success: Option<bool>, turn: Option<Turn>)
      requires Valid() && hash < |chain.txs|
      requires world.worker.Waiting? || world.worker.Resolving?
      modifies this`chain, this`turns, this`steps, this`world
      ensures Valid() && old(steps) <= steps && SameSends(old(chain), chain) && (success.Some? ==> turn.Some?)
      ensures success.Some? ==> turn.value in old(turns)
      ensures success.Some? ==> world.worker == old(world.worker) && chain.txs[hash].fate == (if success.value then Landed else Reverted)
      ensures success.None? ==> world.worker.Idle? && Ended()
    {
      success := None;
      turn := Wait();
      while turn.Some? && !chain.txs[hash].fate.Landed? && !chain.txs[hash].fate.Reverted?
        invariant Valid() && old(steps) <= steps && SameSends(old(chain), chain) && world.flow == old(world.flow)
        invariant turn.Some? ==> world.worker == old(world.worker)
        invariant turn.None? ==> world.worker.Idle? && Ended()
        invariant forall t :: t in turns ==> t in old(turns)
        invariant turn.Some? ==> turn.value in old(turns)
        decreases |turns|, turn.Some?
      {
        turn := Wait();
      }
      if turn.Some? {
        success := Some(chain.txs[hash].fate.Landed?);
      }
    }

    /** Whether a pinned nonce has been consumed by a mined transaction. */
    method CheckNonce(signer: Signer, pinned: nat) returns (state: NonceState)
      ensures state.SpentNonce? <==> Latest(chain, signer) > pinned
    {
      state := if Latest(chain, signer) > pinned then SpentNonce else UnusedNonce;
    }

    /** The nonce after everything the node has seen of the account, mined or not. */
    method PinNonce(signer: Signer, ahead: nat) returns (nonce: nat)
      ensures Latest(chain, signer) <= nonce == Latest(chain, signer) + ahead
    {
      nonce := Latest(chain, signer) + ahead;
    }

    /** The error path of an attempt: the step is failed, and the flow with it once the attempts are spent. */
    method Fail(i: nat) returns (alive: bool)
      requires Valid() && world.worker == Caught(i) && At(world, i) && FirstOpen(flow) == i
      modifies this
      ensures Rests() && old(steps) <= steps && SameSends(old(chain), chain) && (alive || Ended())
      ensures alive <==> !Dies(old(turns), 0)
      ensures var s := old(flow).steps[i].(status := Failed);
              flow == old(flow).(steps := old(flow).steps[i := s],
                                 status := if alive && s.attempts >= MAX_ATTEMPTS then Abandoned else old(flow).status)
    {
      PatchStep(i, flow.steps[i].(status := Failed), Catch);
      alive := CloseIfSpent(i);
    }

    /** The flow is closed once the attempts are spent. */
    method CloseIfSpent(i: nat) returns (alive: bool)
      requires Valid() && world.worker == Closing(i) && At(world, i)
      modifies this
      ensures Rests() && old(steps) <= steps && SameSends(old(chain), chain) && (alive || Ended())
      ensures alive <==> !Dies(old(turns), 0)
      ensures flow == old(flow).(status := if alive && old(flow).steps[i].attempts >= MAX_ATTEMPTS then Abandoned else old(flow).status)
    {
      var turn := Wait();
      if turn.None? { return false; }
      if flow.steps[i].attempts >= MAX_ATTEMPTS {
        FinishFlow(Abandoned, Close);
      } else {
        Record(Close);
      }
      alive := true;
    }

    /** An interrupted step that holds a hash is judged by that hash. */
    method ResolveByHash(i: nat, step: Step) returns (o: Outcome)
      requires Rests() && InDoubt(world) && FirstOpen(flow) == i && step == flow.steps[i]
      requires step.txHash.Some? && step.txHash.value < |chain.txs|
      modifies this
      ensures Rests() && old(steps) <= steps && |chain.txs| == |old(chain).txs| && (o.Died? ==> Ended())
      ensures Ruled(old(flow), flow, i, o)
      ensures Verdict(old(chain), chain, i, step, flow.steps[i], o, old(turns))
    {
      Record(Resolve);
      var success, turn := Confirm(step.txHash.value);
      if success.None? { return Died; }
      if success.value {
        PatchStep(i, step.(status := Done), ResolveOk);
      } else {
        PatchStep(i, step.(status := Failed), ResolveThrows);
      }
      o := Judged;
    }

    /** Without a hash it is judged by its nonce; a spent one is never sent again. */
    method ResolveByNonce(i: nat, step: Step) returns (o: Outcome)
      requires Rests() && InDoubt(world) && FirstOpen(flow) == i && step == flow.steps[i] && step.txHash.None?
      modifies this
      ensures Rests() && old(steps) <= steps && |chain.txs| == |old(chain).txs| && (o.Died? ==> Ended())
      ensures Ruled(old(flow), flow, i, o)
      ensures Verdict(old(chain), chain, i, step, flow.steps[i], o, old(turns))
    {
      o := Judged;
      if step.nonce.None? {
        PatchStep(i, step.(status := Pending), Unpinned);
        return;
      }
      var state := CheckNonce(SignerOf(i), step.nonce.value);
      if state.UnusedNonce? {
        // By assumption a nonce unused at this moment stays so for the sends made so far.
        chain := chain.(txs := Forget(chain.txs, SignerOf(i), step.nonce.value));
        PatchStep(i, step.(status := Pending), Unused);
        return;
      }
      o := SendToReview(i, step);
    }

    /** A person decides; the flow is closed. */
    method SendToReview(i: nat, step: Step) returns (o: Outcome)
      requires Rests() && FirstOpen(flow) == i < STEPS && step == flow.steps[i] && Enabled(ALL, world, Spent)
      modifies this
      ensures Rests() && old(steps) <= steps && |chain.txs| == |old(chain).txs| && (o.Died? ==> Ended())
      ensures o == (if Dies(old(turns), 0) then Died else Judged)
      ensures flow == old(flow).(steps := old(flow).steps[i := step.(status := NeedsReview)], status := if o.Died? then old(flow).status else Abandoned)
    {
      PatchStep(i, step.(status := NeedsReview), Spent);
      var turn := Wait();
      if turn.None? { return Died; }
      FinishFlow(Abandoned, CloseReview);
      o := Judged;
    }

    /** Decides what happened to a step that was interrupted between its write-ahead and its end. */
    method ResolveInFlight(i: nat, step: Step) returns (o: Outcome)
      requires Rests() && InDoubt(world) && FirstOpen(flow) == i && step == flow.steps[i]
      requires step.txHash.Some? ==> step.txHash.value < |chain.txs|
      modifies this
      ensures Rests() && old(steps) <= steps && |chain.txs| == |old(chain).txs| && (o.Died? ==> Ended())
      ensures Ruled(old(flow), flow, i, o)
      ensures Verdict(old(chain), chain, i, step, flow.steps[i], o, old(turns))
    {
      if step.txHash.Some? {
        o := ResolveByHash(i, step);
      } else {
        o := ResolveByNonce(i, step);
      }
    }

    /** Waits for the receipt of an attempt and writes what came of it. */
    method AwaitReceipt(i: nat, amount: int, hash: nat) returns (o: Outcome)
      requires Valid() && world.worker == Waiting(i, amount, hash) && At(world, i)
      requires FirstOpen(flow) == i < SHORT && hash < |chain.txs|
      modifies this
      ensures Rests() && old(steps) <= steps && SameSends(old(chain), chain) && (o.Died? ==> Ended())
      ensures Moved(old(flow), flow, i, o)
      ensures match o
              case StepLanded(moved, out) =>
                moved == amount && chain.txs[hash].fate.Landed? && ReadBack(old(turns), out)
                && flow.steps[i] == old(flow).steps[i].(status := Done, txHash := Some(hash), result := Some(ResultFor(i, amount, out)))
              case StepReverted => chain.txs[hash].fate.Reverted? && flow.steps[i] == old(flow).steps[i].(status := Failed)
              case Died =>
                flow.steps[i] == old(flow).steps[i]
                || (chain.txs[hash].fate.Reverted? && flow.steps[i] == old(flow).steps[i].(status := Failed))
              case _ => false
    {
      var success, turn := Confirm(hash);
      if success.None? { return Died; }
      Record(Receipt);
      if success.value {
        o := SettleStep(i, amount, hash, turn.value.out);
      } else {
        o := FailReverted(i, hash);
      }
    }

    /** Reads back what the transaction produced and writes the step done. */
    method SettleStep(i: nat, amount: int, hash: nat, out: nat) returns (o: Outcome)
      requires Valid() && world.worker == Confirmed(i, amount, hash) && At(world, i) && FirstOpen(flow) == i < SHORT
      modifies this`flow, this`steps, this`world
      ensures Rests() && old(steps) <= steps && o == StepLanded(amount, out)
      ensures flow == old(flow).(steps := old(flow).steps[i := old(flow).steps[i].(status := Done, txHash := Some(hash), result := Some(ResultFor(i, amount, out)))])
    {
      var result := ResultFor(i, amount, out);
      PatchStep(i, flow.steps[i].(status := Done, txHash := Some(hash), result := Some(result)), Settle(out));
      o := StepLanded(amount, out);
    }

    method FailReverted(i: nat, hash: nat) returns (o: Outcome)
      requires Valid() && world.worker == Caught(i) && At(world, i) && FirstOpen(flow) == i
      requires hash < |chain.txs| && chain.txs[hash].fate.Reverted?
      modifies this
      ensures Rests() && old(steps) <= steps && SameSends(old(chain), chain)
      ensures (o.StepReverted? || (o.Died? && Ended())) && chain.txs[hash].fate.Reverted?
      ensures Moved(old(flow), flow, i, o) && flow.steps[i] == old(flow).steps[i].(status := Failed)
    {
      var alive := Fail(i);
      o := if alive then StepReverted else Died;
    }

    /** The simulation or the send throws, by assumption with nothing broadcast. */
    method FailSend(i: nat, turn: Turn) returns (o: Outcome)
      requires Valid() && world.worker.Broadcasting? && world.worker.i == i && At(world, i) && FirstOpen(flow) == i < SHORT
      modifies this
      ensures Rests() && old(steps) <= steps && |chain.txs| == |old(chain).txs| && (o.Died? ==> Ended())
      ensures o == (if Dies(old(turns), 0) then Died else Threw(turn))
      ensures Moved(old(flow), flow, i, o) && flow.steps[i] == old(flow).steps[i].(status := Failed)
    {
      Record(SendThrows);
      var alive := Fail(i);
      o := if alive then Threw(turn) else Died;
    }

    /** Broadcasts under the pinned nonce; None when the process dies before the hash is back. */
    method Broadcast(i: nat, amount: int, nonce: nat) returns (hash: Option<nat>)
      requires Valid() && world.worker == Broadcasting(i, amount, nonce) && At(world, i) && FirstOpen(flow) == i < SHORT
      modifies this`chain, this`turns, this`steps, this`world
      ensures Valid() && old(steps) <= steps && |chain.txs| == |old(chain).txs| + 1
      ensures IsSend(chain.txs[|old(chain).txs|], i, Some(nonce))
      ensures hash.None? <==> Dies(old(turns), 0)
      ensures if hash.Some? then turns == old(turns)[1..] && hash.value == |old(chain).txs| && world.worker == FlowModel.Broadcast(i, amount, hash.value)
              else world.worker.Idle? && Ended()
    {
      var next := |chain.txs|;
      chain := chain.(txs := chain.txs + [Tx(i, nonce, InFlight)]);
      Record(Send);
      var turn := Wait();
      hash := if turn.Some? then Some(next) else None;
    }

    /** Broadcasts, records the hash and waits for the receipt. */
    method SendPinned(i: nat, amount: int, nonce: nat) returns (o: Outcome)
      requires Valid() && world.worker == Broadcasting(i, amount, nonce) && At(world, i) && FirstOpen(flow) == i < SHORT
      requires flow.steps[i].nonce == Some(nonce)
      modifies this
      ensures Rests() && old(steps) <= steps && |chain.txs| == |old(chain).txs| + 1 && (o.Died? ==> Ended())
      ensures Moved(old(flow), flow, i, o)
      ensures SentResult(o, old(flow).steps[i], flow.steps[i], i, amount, |old(chain).txs|, chain.txs, old(turns))
    {
      var hash := Broadcast(i, amount, nonce);
      if hash.None? { return Died; }
      o := RecordAndAwait(i, amount, hash.value);
    }

    method RecordAndAwait(i: nat, amount: int, hash: nat) returns (o: Outcome)
      requires Valid() && world.worker == FlowModel.Broadcast(i, amount, hash) && At(world, i) && FirstOpen(flow) == i < SHORT
      requires hash < |chain.txs| && IsSend(chain.txs[hash], i, flow.steps[i].nonce) && flow.steps[i].status.Sending?
      modifies this
      ensures Rests() && old(steps) <= steps && |chain.txs| == |old(chain).txs| && (o.Died? ==> Ended())
      ensures Moved(old(flow), flow, i, o)
      ensures Recorded(o, old(flow).steps[i].(status := FlowModel.Status.Sent, txHash := Some(hash)), flow.steps[i], i, amount, hash, chain.txs, old(turns))
    {
      PatchStep(i, flow.steps[i].(status := FlowModel.Status.Sent, txHash := Some(hash)), RecordHash);
      FirstOpenAt(flow, i);
      o := AwaitReceipt(i, amount, hash);
    }

    /** The write before the broadcast; None when the process dies right after it. */
    method WriteAheadOf(i: nat, amount: int, nonce: nat) returns (turn: Option<Turn>)
      requires Valid() && world.worker == Pinned(i, amount, nonce) && At(world, i) && FirstOpen(flow) == i < SHORT
      modifies this
      ensures Valid() && old(steps) <= steps && |chain.txs| == |old(chain).txs|
      ensures flow == old(flow).(steps := old(flow).steps[i := Armed(old(flow).steps[i], Some(nonce))]) && FirstOpen(flow) == i
      ensures turn.None? <==> Dies(old(turns), 0)
      ensures turn.Some? ==> turn.value == old(turns)[0] && turns == old(turns)[1..]
      ensures if turn.Some? then world.worker == Broadcasting(i, amount, nonce) else world.worker.Idle? && Ended()
    {
      PatchStep(i, flow.steps[i].(status := Sending, nonce := Some(nonce)), WriteAhead);
      FirstOpenAt(flow, i);
      turn := Wait();
    }

    /** The write before the broadcast, and what follows it. */
    method SendStep(i: nat, amount: int, nonce: nat) returns (o: Outcome)
      requires Valid() && world.worker == Pinned(i, amount, nonce) && At(world, i) && FirstOpen(flow) == i < SHORT
      modifies this
      ensures Rests() && old(steps) <= steps && (o.Died? ==> Ended())
      ensures Moved(old(flow), flow, i, o)
      ensures SendResult(o, Armed(old(flow).steps[i], Some(nonce)), flow.steps[i], i, amount, |old(chain).txs|, chain.txs, old(turns))
    {
      var turn := WriteAheadOf(i, amount, nonce);
      if turn.None? { return Died; }
      if turn.value.throws {
        o := FailSend(i, turn.value);
      } else {
        o := SendPinned(i, amount, nonce);
      }
    }

    method PinAndSend(i: nat, amount: int) returns (o: Outcome)
      requires Valid() && world.worker == Planned(i, amount) && At(world, i) && FirstOpen(flow) == i < SHORT
      modifies this
      ensures Rests() && old(steps) <= steps && (o.Died? ==> Ended())
      ensures Moved(old(flow), flow, i, o)
      ensures if Dies(old(turns), 0) then o.Died? && |chain.txs| == |old(chain).txs| && flow.steps[i] == old(flow).steps[i]
              else SendResult(o, Armed(old(flow).steps[i], flow.steps[i].nonce), flow.steps[i], i, amount, |old(chain).txs|, chain.txs, old(turns)[1..])
    {
      var turn := Wait();
      if turn.None? { return Died; }
      var nonce := PinNonce(SignerOf(i), turn.value.ahead);
      Record(Pin(nonce));
      o := SendStep(i, amount, nonce);
    }

    /** Plans the step and, if there is something to move, pins a nonce for it and sends. */
    method PlanStep(i: nat, turn: Turn) returns (o: Outcome)
      requires Valid() && world.worker == Planning(i) && At(world, i) && FirstOpen(flow) == i < SHORT
      modifies this
      ensures Rests() && old(steps) <= steps && (o.Died? ==> Ended())
      ensures Moved(old(flow), flow, i, o)
      ensures PlanResult(old(flow), old(flow).steps[i], flow.steps[i], i, |old(chain).txs|, chain.txs, o, turn, old(turns))
    {
      if turn.throws {
        Record(PlanThrows);
        return Threw(turn);
      }
      var plan := PlanFor(flow, i, turn.held, turn.allowance);
      if plan.None? {
        PatchStep(i, flow.steps[i].(status := Done, result := Some(Skipped)), Plan(turn.held, turn.allowance));
        return Skips;
      }
      Record(Plan(turn.held, turn.allowance));
      o := PinAndSend(i, plan.value);
    }

    /** The hedge: one order to the venue, no write before it. */
    method RunOpenShort(i: nat, turn: Turn) returns (o: Outcome)
      requires Valid() && world.worker == Planning(i) && At(world, i) && FirstOpen(flow) == i == SHORT
      modifies this
      ensures Rests() && old(steps) <= steps && |chain.txs| == |old(chain).txs| && (o.Died? ==> Ended())
      ensures Moved(old(flow), flow, i, o)
      ensures ShortResult(old(flow), old(flow).steps[i], flow.steps[i], old(chain).orders, chain.orders, o, turn, old(turns))
    {
      if StakedOf(flow) == 0 {
        PatchStep(i, flow.steps[i].(status := Done, result := Some(Skipped)), ShortSkips);
        return Skips;
      }
      var size := ShortSize(flow);
      if turn.throws || size == 0 {
        Record(ShortThrows);
        var alive := Fail(i);
        return if alive then Threw(turn) else Died;
      }
      o := PlaceOrder(i, size, turn.reply);
    }

    method PlaceOrder(i: nat, size: nat, reply: Reply) returns (o: Outcome)
      requires Valid() && world.worker == Planning(i) && At(world, i) && FirstOpen(flow) == i == SHORT
      requires StakedOf(flow) != 0 && size == ShortSize(flow) > 0
      modifies this
      ensures Rests() && old(steps) <= steps && |chain.txs| == |old(chain).txs| && (o.Died? ==> Ended())
      ensures Moved(old(flow), flow, i, o)
      ensures OrderResult(size, old(flow).steps[i], flow.steps[i], old(chain).orders, chain.orders, o, reply, old(turns))
    {
      Record(Submit(reply));
      if !reply.Refused? {
        chain := chain.(orders := chain.orders + [size]);
      }
      if !reply.Accepted? {
        var alive := Fail(i);
        return if alive then OrderFailed(reply) else Died;
      }
      o := RecordOrder(i, size);
    }

    method RecordOrder(i: nat, size: nat) returns (o: Outcome)
      requires Valid() && world.worker == Ordered(i, size) && At(world, i) && FirstOpen(flow) == i == SHORT
      modifies this
      ensures Rests() && old(steps) <= steps && SameSends(old(chain), chain) && (o.Died? ==> Ended())
      ensures o == (if Dies(old(turns), 0) then Died else OrderPlaced)
      ensures flow == if o.Died? then old(flow) else old(flow).(steps := old(flow).steps[i := old(flow).steps[i].(status := Done, result := Some(Shorted(size)))])
    {
      var next := Wait();
      if next.None? { return Died; }
      PatchStep(i, flow.steps[i].(status := Done, result := Some(Shorted(size))), RecordShort);
      o := OrderPlaced;
    }

    /** Opens an attempt: the step pending, one attempt more. */
    method StartStep(i: nat, step: Step) returns (turn: Option<Turn>)
      requires Rests() && Due(world) && FirstOpen(flow) == i < STEPS && step == flow.steps[i] && Startable(step)
      modifies this
      ensures Valid() && old(steps) <= steps && SameSends(old(chain), chain) && At(world, i) && FirstOpen(flow) == i
      ensures flow == old(flow).(steps := old(flow).steps[i := step.(status := Pending, attempts := step.attempts + 1)])
      ensures turn.None? <==> Dies(old(turns), 0)
      ensures turn.Some? ==> turn.value == old(turns)[0] && turns == old(turns)[1..]
      ensures if turn.Some? then world.worker == Planning(i) else world.worker.Idle? && Ended()
    {
      PatchStep(i, step.(status := Pending, attempts := step.attempts + 1), Start);
      FirstOpenAt(flow, i);
      turn := Wait();
    }

    method RunStep(i: nat, step: Step) returns (o: Outcome)
      requires Rests() && Due(world) && FirstOpen(flow) == i < STEPS && step == flow.steps[i] && Startable(step)
      modifies this
      ensures Rests() && old(steps) <= steps && (o.Died? ==> Ended())
      ensures Moved(old(flow), flow, i, o)
      ensures var before := step.(status := Pending, attempts := step.attempts + 1);
              if i == SHORT then |chain.txs| == |old(chain).txs| && ShortAttempted(old(flow), before, flow.steps[i], old(chain).orders, chain.orders, o, old(turns))
              else Attempted(old(flow), before, flow.steps[i], i, |old(chain).txs|, chain.txs, o, old(turns))
    {
      var turn := StartStep(i, step);
      if turn.None? { return Died; }
      if i == SHORT {
        o := RunOpenShort(i, turn.value);
      } else {
        PlanStable(old(flow), flow, i, turn.value.held, turn.value.allowance);
        o := PlanStep(i, turn.value);
      }
    }

    /**
     One tick of a running flow under any schedule of the surroundings: what it does to the document and the
     chain is settled by the state it finds, and it stops short only where the surroundings end it. It moves
     the first open step and no other, and broadcasts at most once. Being a run of FlowModel it keeps
     everything proved there; the order of the steps and the bound on landings are repeated.
     */
    method Advance(schedule: seq<Turn>) returns (o: Outcome)
      requires Rests() && flow.status.Running?
      modifies this
      ensures Rests() && old(steps) <= steps && (o.Died? ==> Ended())
      ensures Ticked(old(flow), old(chain), flow, chain, o, schedule)
      ensures OpenAt(flow, FirstOpen(flow))
      ensures forall i: nat :: i < STEPS ==> Landings(chain, i) < MAX_ATTEMPTS
    {
      turns := schedule;
      o := Act(FirstOpen(flow));
      forall j: nat | j < STEPS ensures Landings(chain, j) < MAX_ATTEMPTS {
        AtMostFour(start, steps, j);
      }
    }

    method Act(i: nat) returns (o: Outcome)
      requires Rests() && flow.status.Running? && i == FirstOpen(flow)
      modifies this
      ensures Rests() && old(steps) <= steps && (o.Died? ==> Ended())
      ensures Ticked(old(flow), old(chain), flow, chain, o, old(turns))
    {
      if i == STEPS {
        FinishFlow(Completed, Complete);
        return AllDone;
      }
      var step := flow.steps[i];
      if step.status.NeedsReview? {
        // A person has to look at this one.
        o := InReview;
      } else if step.status.Failed? && step.attempts >= MAX_ATTEMPTS {
        FinishFlow(Abandoned, GiveUp);
        o := OutOfAttempts;
      } else if step.status.Sending? || step.status.Sent? {
        HashOnChain(i);
        o := ResolveInFlight(i, step);
      } else {
        o := RunStep(i, step);
      }
    }

    /** A recorded hash is that of a transaction this engine sent. */
    lemma HashOnChain(i: nat)
      requires Rests() && i < STEPS && (flow.steps[i].status.Sending? || flow.steps[i].status.Sent?)
      ensures flow.steps[i].txHash.Some? ==> flow.steps[i].txHash.value < |chain.txs|
    {
      InitialInv(start, i, 1, false);
      InvKept(start, steps, i, 1);
    }
  }
}

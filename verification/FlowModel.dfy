// The allocation pipeline as a protocol over durable writes. A run is a list of steps: one database write
// or one chain action each, with a crash possible between any two. The chain mines a transaction only when
// its nonce is the account's next one; other transactions of the same account may take that nonce.
module FlowModel {
  import opened Options

  // ---- The document ----

  /** Steps are numbered in the order of STEP_NAMES; the last is not a chain transaction. */
  const STEPS := 7
  const SWAP_MON := 0
  const SWAP_AUSD := 1
  const STAKE := 2
  const FUND := 3
  const APPROVE := 4
  const DEPOSIT := 5
  const SHORT := 6
  const MAX_ATTEMPTS := 5
  const BPS := 10_000
  const MON := 1_000_000_000_000_000_000

  datatype Status = Pending | Sending | Sent | Done | Failed | NeedsReview

  datatype Result =
    | Skipped
    | Swapped(usdcIn: int, out: nat)
    | Staked(amount: nat)
    | Funded(amount: nat)
    | Approved(amount: nat)
    | Deposited(amount: nat)
    | Shorted(size: nat)

  /** A transaction hash is the transaction's place in the chain's log. */
  datatype Step = Step(status: Status, attempts: nat, nonce: Option<nat>, txHash: Option<nat>, result: Option<Result>)

  const FRESH := Step(Pending, 0, None, None, None)

  datatype FlowStatus = Running | Completed | Abandoned

  datatype Flow = Flow(usdcIn: nat, ratioBps: nat, status: FlowStatus, steps: seq<Step>)

  function NewFlow(usdcIn: nat, ratioBps: nat): Flow {
    Flow(usdcIn, ratioBps, Running, [FRESH, FRESH, FRESH, FRESH, FRESH, FRESH, FRESH])
  }

  predicate WellFormed(f: Flow) { |f.steps| == STEPS }

  /** The first step that is not done, or STEPS. */
  function FirstOpen(f: Flow): nat
    requires WellFormed(f)
  {
    FirstOpenFrom(f, 0)
  }

  function FirstOpenFrom(f: Flow, i: nat): (k: nat)
    requires WellFormed(f) && i <= STEPS
    ensures i <= k <= STEPS
    ensures forall j :: i <= j < k ==> f.steps[j].status.Done?
    ensures k < STEPS ==> !f.steps[k].status.Done?
    decreases STEPS - i
  {
    if i == STEPS || !f.steps[i].status.Done? then i else FirstOpenFrom(f, i + 1)
  }

  // ---- The chain ----

  datatype Signer = Admin | Manager

  function SignerOf(step: nat): Signer { if step == APPROVE || step == DEPOSIT then Manager else Admin }

  datatype Fate = InFlight | Landed | Reverted | Gone

  datatype Tx = Tx(step: nat, nonce: nat, fate: Fate)

  /** `admin` and `manager` are the accounts' next nonces; `orders` the short orders the venue accepted. */
  datatype Chain = Chain(admin: nat, manager: nat, txs: seq<Tx>, orders: seq<nat>)

  function Latest(c: Chain, s: Signer): nat { if s.Admin? then c.admin else c.manager }

  function Spend(c: Chain, s: Signer): Chain {
    if s.Admin? then c.(admin := c.admin + 1) else c.(manager := c.manager + 1)
  }

  // ---- What a step plans ----

  function MonShare(f: Flow): nat { f.usdcIn * f.ratioBps / BPS }

  function OutputOf(f: Flow, i: nat): nat
    requires i < |f.steps|
  {
    match f.steps[i].result
    case Some(Swapped(_, out)) => out
    case _ => 0
  }

  function StakedOf(f: Flow): nat
    requires WellFormed(f)
  {
    match f.steps[STAKE].result
    case Some(Staked(amount)) => amount
    case _ => 0
  }

  /** What the chain step is about to move, or None when there is nothing to do. `held` and `allowance` are chain reads. */
  function PlanFor(f: Flow, i: nat, held: nat, allowance: nat): Option<int>
    requires WellFormed(f) && i < SHORT
  {
    var amount: int :=
      if i == SWAP_MON then MonShare(f)
      else if i == SWAP_AUSD then f.usdcIn - MonShare(f)
      else if i == STAKE then OutputOf(f, SWAP_MON)
      else if i == FUND then OutputOf(f, SWAP_AUSD)
      else held;
    if amount == 0 || (i == APPROVE && allowance >= held) then None else Some(amount)
  }

  /** What settling the step records, given the output a swap produced. */
  function ResultFor(i: nat, amount: int, out: nat): Result {
    if i == SWAP_MON || i == SWAP_AUSD then Swapped(amount, out)
    else if amount < 0 then Skipped
    else if i == STAKE then Staked(amount)
    else if i == FUND then Funded(amount)
    else if i == APPROVE then Approved(amount)
    else Deposited(amount)
  }

  /** Whole MON of the stake. */
  function ShortSize(f: Flow): nat
    requires WellFormed(f)
  {
    StakedOf(f) / MON
  }

  // ---- Workers and steps ----

  datatype Worker =
    | Idle
    | Planning(i: nat)
    | Planned(i: nat, amount: int)
    | Pinned(i: nat, amount: int, nonce: nat)
    | Broadcasting(i: nat, amount: int, nonce: nat)
    | Broadcast(i: nat, amount: int, hash: nat)
    | Waiting(i: nat, amount: int, hash: nat)
    | Confirmed(i: nat, amount: int, hash: nat)
    | Caught(i: nat)
    | Closing(i: nat)
    | Resolving(i: nat)
    | Reviewing(i: nat)
    | Ordered(i: nat, size: nat)

  datatype World = World(flow: Flow, chain: Chain, worker: Worker)

  /** What the code relies on. Each can be dropped on its own. */
  datatype Assumptions = Assumptions(
    sendThrowsClean: bool,    // a thrown send broadcast nothing
    unusedIsFinal: bool,      // a nonce unused at "latest" means that send never lands
    confirmIsHonest: bool,    // confirm throws only on a revert
    settleHolds: bool,        // reading back the result does not throw
    writesHold: bool)         // a lost write is a crash, never an exception the step survives

  const ALL := Assumptions(true, true, true, true, true)

  /** What the venue makes of a short order. An unacknowledged one was placed and the wait timed out, so the session reports a failure. */
  datatype Reply = Accepted | Refused | Unacknowledged

  datatype Label =
    | Mine(hash: nat, ok: bool) | Foreign(signer: Signer) | Crash
    | Start | GiveUp | Complete
    | Resolve | ResolveOk | ResolveThrows | Unpinned | Unused | Spent | CloseReview
    | PlanThrows | Plan(held: nat, allowance: nat) | Pin(nonce: nat) | WriteAhead
    | Send | SendThrows | SendLost | RecordHash | HashWriteFails
    | Receipt | ReceiptLost | Settle(out: nat) | SettleThrows | DoneWriteFails
    | Catch | Close
    | ShortSkips | ShortThrows | Submit(reply: Reply) | RecordShort

  function Current(w: World): Step
    requires WellFormed(w.flow) && FirstOpen(w.flow) < STEPS
  {
    w.flow.steps[FirstOpen(w.flow)]
  }

  /** The next tick would act on this flow. */
  predicate Due(w: World) { w.worker.Idle? && WellFormed(w.flow) && w.flow.status.Running? }

  predicate Startable(s: Step) { s.status.Pending? || (s.status.Failed? && s.attempts < MAX_ATTEMPTS) }

  predicate InDoubt(w: World) { Due(w) && FirstOpen(w.flow) < STEPS && (Current(w).status.Sending? || Current(w).status.Sent?) }

  predicate At(w: World, i: nat) { WellFormed(w.flow) && i < STEPS }

  predicate Enabled(a: Assumptions, w: World, l: Label) {
    match l
    case Mine(h, ok) => h < |w.chain.txs| && w.chain.txs[h].fate.InFlight?
                        && w.chain.txs[h].nonce == Latest(w.chain, SignerOf(w.chain.txs[h].step))
    case Foreign(_) => true
    case Crash => true
    case Start => Due(w) && FirstOpen(w.flow) < STEPS && Startable(Current(w))
    case GiveUp => Due(w) && FirstOpen(w.flow) < STEPS && Current(w).status.Failed? && Current(w).attempts >= MAX_ATTEMPTS
    case Complete => Due(w) && FirstOpen(w.flow) == STEPS
    case Resolve => InDoubt(w) && Current(w).txHash.Some?
    case Unpinned => InDoubt(w) && Current(w).txHash.None? && Current(w).nonce.None?
    case Unused => InDoubt(w) && Current(w).txHash.None? && Current(w).nonce.Some?
                   && Latest(w.chain, SignerOf(FirstOpen(w.flow))) <= Current(w).nonce.value
    case Spent => InDoubt(w) && Current(w).txHash.None? && Current(w).nonce.Some?
                  && Latest(w.chain, SignerOf(FirstOpen(w.flow))) > Current(w).nonce.value
    case CloseReview => w.worker.Reviewing?
    case ResolveOk => w.worker.Resolving? && At(w, w.worker.i) && FateOf(w, w.worker.i) == Some(Landed)
    case ResolveThrows => w.worker.Resolving? && At(w, w.worker.i) && (FateOf(w, w.worker.i) == Some(Reverted) || !a.confirmIsHonest)
    case PlanThrows => w.worker.Planning? && w.worker.i < SHORT
    case Plan(_, _) => w.worker.Planning? && At(w, w.worker.i) && w.worker.i < SHORT
    case Pin(n) => w.worker.Planned? && Latest(w.chain, SignerOf(w.worker.i)) <= n
    case WriteAhead => w.worker.Pinned? && At(w, w.worker.i)
    case Send => w.worker.Broadcasting?
    case SendThrows => w.worker.Broadcasting?
    case SendLost => w.worker.Broadcasting? && !a.sendThrowsClean
    case RecordHash => w.worker.Broadcast? && At(w, w.worker.i)
    case HashWriteFails => w.worker.Broadcast? && !a.writesHold
    case Receipt => w.worker.Waiting? && w.worker.hash < |w.chain.txs| && (w.chain.txs[w.worker.hash].fate.Landed? || w.chain.txs[w.worker.hash].fate.Reverted?)
    case ReceiptLost => w.worker.Waiting? && !a.confirmIsHonest
    case Settle(_) => w.worker.Confirmed? && At(w, w.worker.i)
    case SettleThrows => w.worker.Confirmed? && !a.settleHolds
    case DoneWriteFails => w.worker.Confirmed? && !a.writesHold
    case Catch => w.worker.Caught? && At(w, w.worker.i)
    case Close => w.worker.Closing? && At(w, w.worker.i)
    case ShortSkips => w.worker.Planning? && At(w, w.worker.i) && w.worker.i == SHORT && StakedOf(w.flow) == 0
    case ShortThrows => w.worker.Planning? && w.worker.i == SHORT
    case Submit(_) => w.worker.Planning? && At(w, w.worker.i) && w.worker.i == SHORT && StakedOf(w.flow) != 0 && ShortSize(w.flow) > 0
    case RecordShort => w.worker.Ordered? && At(w, w.worker.i)
  }

  /** The fate of the transaction whose hash a step holds. */
  function FateOf(w: World, i: nat): Option<Fate>
    requires At(w, i)
  {
    match w.flow.steps[i].txHash
    case None => None
    case Some(h) => if h < |w.chain.txs| then Some(w.chain.txs[h].fate) else None
  }

  function Patch(w: World, i: nat, s: Step, worker: Worker): World
    requires At(w, i)
  {
    w.(flow := w.flow.(steps := w.flow.steps[i := s]), worker := worker)
  }

  function End(w: World, status: FlowStatus): World { w.(flow := w.flow.(status := status), worker := Idle) }

  /** Sends of a nonce that was never mined will not be mined later either. */
  function Forget(txs: seq<Tx>, s: Signer, nonce: nat): (r: seq<Tx>)
    ensures |r| == |txs|
    ensures forall k :: 0 <= k < |txs| ==>
      r[k] == if txs[k].fate.InFlight? && txs[k].nonce == nonce && SignerOf(txs[k].step) == s then txs[k].(fate := Gone) else txs[k]
  {
    seq(|txs|, k requires 0 <= k < |txs| =>
      if txs[k].fate.InFlight? && txs[k].nonce == nonce && SignerOf(txs[k].step) == s then txs[k].(fate := Gone) else txs[k])
  }

  function Posted(w: World): Chain
    requires w.worker.Broadcasting?
  {
    w.chain.(txs := w.chain.txs + [Tx(w.worker.i, w.worker.nonce, InFlight)])
  }

  function Apply(a: Assumptions, w: World, l: Label): World
    requires Enabled(a, w, l)
  {
    match l
    case Mine(h, ok) =>
      var t := w.chain.txs[h];
      w.(chain := Spend(w.chain, SignerOf(t.step)).(txs := w.chain.txs[h := t.(fate := if ok then Landed else Reverted)]))
    case Foreign(s) => w.(chain := Spend(w.chain, s))
    case Crash => w.(worker := Idle)
    case Start =>
      var i := FirstOpen(w.flow);
      Patch(w, i, Current(w).(status := Pending, attempts := Current(w).attempts + 1), Planning(i))
    case GiveUp => End(w, Abandoned)
    case Complete => End(w, Completed)
    case Resolve => w.(worker := Resolving(FirstOpen(w.flow)))
    case Unpinned => Patch(w, FirstOpen(w.flow), Current(w).(status := Pending), Idle)
    case Unused =>
      var i := FirstOpen(w.flow);
      var v := Patch(w, i, Current(w).(status := Pending), Idle);
      if a.unusedIsFinal then v.(chain := w.chain.(txs := Forget(w.chain.txs, SignerOf(i), Current(w).nonce.value))) else v
    case Spent => Patch(w, FirstOpen(w.flow), Current(w).(status := NeedsReview), Reviewing(FirstOpen(w.flow)))
    case CloseReview => End(w, Abandoned)
    case ResolveOk => Patch(w, w.worker.i, w.flow.steps[w.worker.i].(status := Done), Idle)
    case ResolveThrows => Patch(w, w.worker.i, w.flow.steps[w.worker.i].(status := Failed), Idle)
    case PlanThrows => w.(worker := Idle)
    case Plan(held, allowance) =>
      var i := w.worker.i;
      (match PlanFor(w.flow, i, held, allowance)
       case None => Patch(w, i, w.flow.steps[i].(status := Done, result := Some(Skipped)), Idle)
       case Some(amount) => w.(worker := Planned(i, amount)))
    case Pin(n) => w.(worker := Pinned(w.worker.i, w.worker.amount, n))
    case WriteAhead =>
      var k := w.worker;
      Patch(w, k.i, w.flow.steps[k.i].(status := Sending, nonce := Some(k.nonce)), Broadcasting(k.i, k.amount, k.nonce))
    case Send => w.(chain := Posted(w), worker := Broadcast(w.worker.i, w.worker.amount, |w.chain.txs|))
    case SendThrows => w.(worker := Caught(w.worker.i))
    case SendLost => w.(chain := Posted(w), worker := Caught(w.worker.i))
    case RecordHash =>
      var k := w.worker;
      Patch(w, k.i, w.flow.steps[k.i].(status := Sent, txHash := Some(k.hash)), Waiting(k.i, k.amount, k.hash))
    case HashWriteFails => w.(worker := Caught(w.worker.i))
    case Receipt =>
      var k := w.worker;
      w.(worker := if w.chain.txs[k.hash].fate.Landed? then Confirmed(k.i, k.amount, k.hash) else Caught(k.i))
    case ReceiptLost => w.(worker := Caught(w.worker.i))
    case Settle(out) =>
      var k := w.worker;
      Patch(w, k.i, w.flow.steps[k.i].(status := Done, txHash := Some(k.hash), result := Some(ResultFor(k.i, k.amount, out))), Idle)
    case SettleThrows => w.(worker := Caught(w.worker.i))
    case DoneWriteFails => w.(worker := Caught(w.worker.i))
    case Catch => Patch(w, w.worker.i, w.flow.steps[w.worker.i].(status := Failed), Closing(w.worker.i))
    case Close => if w.flow.steps[w.worker.i].attempts >= MAX_ATTEMPTS then End(w, Abandoned) else w.(worker := Idle)
    case ShortSkips => Patch(w, w.worker.i, w.flow.steps[w.worker.i].(status := Done, result := Some(Skipped)), Idle)
    case ShortThrows => w.(worker := Caught(w.worker.i))
    case Submit(reply) =>
      var size := ShortSize(w.flow);
      var placed := if reply.Refused? then w else w.(chain := w.chain.(orders := w.chain.orders + [size]));
      placed.(worker := if reply.Accepted? then Ordered(w.worker.i, size) else Caught(w.worker.i))
    case RecordShort =>
      var k := w.worker;
      Patch(w, k.i, w.flow.steps[k.i].(status := Done, result := Some(Shorted(k.size))), Idle)
  }

  ghost predicate Legal(a: Assumptions, w: World, run: seq<Label>)
    decreases |run|
  {
    run != [] ==> Enabled(a, w, run[0]) && Legal(a, Apply(a, w, run[0]), run[1..])
  }

  ghost function Run(a: Assumptions, w: World, run: seq<Label>): World
    requires Legal(a, w, run)
    decreases |run|
  {
    if run == [] then w else Run(a, Apply(a, w, run[0]), run[1..])
  }

  /** A new flow on a chain that has seen nothing of it. */
  predicate Initial(w: World) {
    w.flow == NewFlow(w.flow.usdcIn, w.flow.ratioBps) && w.chain.txs == [] && w.chain.orders == [] && w.worker.Idle?
  }

  /** The step the worker is on, if any. */
  function Working(k: Worker): Option<nat> { if k.Idle? then None else Some(k.i) }

  // ---- The shape of every persisted document ----

  predicate Untouched(s: Step) { s == FRESH }

  /** Done steps, then at most one touched step, then untouched ones; the worker is on the first open step. */
  ghost predicate OrderInv(w: World) {
    && WellFormed(w.flow)
    && (forall j :: FirstOpen(w.flow) < j < STEPS ==> Untouched(w.flow.steps[j]))
    && (!w.worker.Idle? ==> w.worker.i == FirstOpen(w.flow) < STEPS && w.flow.status.Running?)
    && (w.flow.status.Completed? ==> FirstOpen(w.flow) == STEPS)
  }

  /** What the document says about the step while the worker is on it: memory never runs ahead of a write. */
  ghost predicate WorkInv(w: World)
    requires WellFormed(w.flow)
  {
    var k := w.worker;
    k.Idle? ||
    (k.i < STEPS &&
     var s := w.flow.steps[k.i];
     match k
     case Planning(_) => s.status.Pending?
     case Planned(_, _) => s.status.Pending? && k.i < SHORT
     case Pinned(_, _, _) => s.status.Pending? && k.i < SHORT
     case Broadcasting(_, _, n) => s.status.Sending? && s.nonce == Some(n) && k.i < SHORT
     case Broadcast(_, _, h) => s.status.Sending? && s.nonce.Some? && k.i < SHORT && h < |w.chain.txs| && w.chain.txs[h].step == k.i && Some(w.chain.txs[h].nonce) == s.nonce
     case Waiting(_, _, h) => s.status.Sent? && s.txHash == Some(h) && k.i < SHORT
     case Confirmed(_, _, h) => s.status.Sent? && s.txHash == Some(h) && k.i < SHORT && h < |w.chain.txs| && w.chain.txs[h].fate.Landed?
     case Caught(_) => s.status.Pending? || s.status.Sending? || s.status.Sent?
     case Closing(_) => s.status.Failed?
     case Resolving(_) => (s.status.Sending? || s.status.Sent?) && s.txHash.Some?
     case Reviewing(_) => s.status.NeedsReview?
     case Ordered(_, size) => s.status.Pending? && k.i == SHORT && size == ShortSize(w.flow) > 0
     case Idle => true)
  }

  lemma FirstOpenAt(f: Flow, i: nat)
    requires WellFormed(f) && i <= STEPS
    requires forall j :: 0 <= j < i ==> f.steps[j].status.Done?
    requires i < STEPS ==> !f.steps[i].status.Done?
    ensures FirstOpen(f) == i
  {
  }

  /** What a label leaves alone: the amounts of the flow, every step but the first open one, and whom the worker is on. */
  ghost predicate OpenMoves(w: World, v: World) {
    && WellFormed(w.flow) && WellFormed(v.flow) && v.flow.usdcIn == w.flow.usdcIn && v.flow.ratioBps == w.flow.ratioBps
    && (forall j :: 0 <= j < STEPS && j != FirstOpen(w.flow) ==> v.flow.steps[j] == w.flow.steps[j])
    && (!v.worker.Idle? ==>
          v.worker.i == FirstOpen(w.flow) < STEPS && v.flow.status.Running? && !v.flow.steps[FirstOpen(w.flow)].status.Done?)
    && (v.flow.status.Completed? ==> FirstOpen(w.flow) == STEPS)
  }

  /** The labels of the chain, of the tick and of the attempt, so that each proof meets a part of them. */
  predicate FromOutside(l: Label) { l.Mine? || l.Foreign? || l.Crash? }

  predicate OfTick(l: Label) {
    l.Start? || l.GiveUp? || l.Complete? || l.Resolve? || l.Unpinned? || l.Unused? || l.Spent? || l.CloseReview? || l.ResolveOk? || l.ResolveThrows?
  }

  lemma OutsideOpens(a: Assumptions, w: World, l: Label)
    requires OrderInv(w) && WorkInv(w) && Enabled(a, w, l) && FromOutside(l)
    ensures OpenMoves(w, Apply(a, w, l))
  {
  }

  lemma TickOpens(a: Assumptions, w: World, l: Label)
    requires OrderInv(w) && WorkInv(w) && Enabled(a, w, l) && OfTick(l)
    ensures OpenMoves(w, Apply(a, w, l))
  {
  }

  lemma AttemptOpens(a: Assumptions, w: World, l: Label)
    requires OrderInv(w) && WorkInv(w) && Enabled(a, w, l) && !FromOutside(l) && !OfTick(l)
    ensures OpenMoves(w, Apply(a, w, l))
  {
  }

  lemma OpenStep(a: Assumptions, w: World, l: Label)
    requires OrderInv(w) && WorkInv(w) && Enabled(a, w, l)
    ensures OpenMoves(w, Apply(a, w, l))
  {
    if FromOutside(l) { OutsideOpens(a, w, l); } else if OfTick(l) { TickOpens(a, w, l); } else { AttemptOpens(a, w, l); }
  }

  lemma OrderFollows(w: World, v: World)
    requires OrderInv(w) && OpenMoves(w, v)
    ensures OrderInv(v)
  {
    var i := FirstOpen(w.flow);
    if i < STEPS && v.flow.steps[i].status.Done? {
      if i + 1 < STEPS { assert Untouched(w.flow.steps[i + 1]); }
      FirstOpenAt(v.flow, i + 1);
    } else {
      FirstOpenAt(v.flow, i);
    }
  }

  lemma OutsideWork(a: Assumptions, w: World, l: Label)
    requires OrderInv(w) && WorkInv(w) && Enabled(a, w, l) && FromOutside(l)
    ensures WellFormed(Apply(a, w, l).flow) && WorkInv(Apply(a, w, l))
  {
  }

  lemma TickWork(a: Assumptions, w: World, l: Label)
    requires OrderInv(w) && WorkInv(w) && Enabled(a, w, l) && OfTick(l)
    ensures WellFormed(Apply(a, w, l).flow) && WorkInv(Apply(a, w, l))
  {
  }

  lemma AttemptWork(a: Assumptions, w: World, l: Label)
    requires OrderInv(w) && WorkInv(w) && Enabled(a, w, l) && !FromOutside(l) && !OfTick(l)
    ensures WellFormed(Apply(a, w, l).flow) && WorkInv(Apply(a, w, l))
  {
  }

  lemma ShapeStep(a: Assumptions, w: World, l: Label)
    requires OrderInv(w) && WorkInv(w) && Enabled(a, w, l)
    ensures var v := Apply(a, w, l); OrderInv(v) && WorkInv(v)
  {
    OpenStep(a, w, l);
    OrderFollows(w, Apply(a, w, l));
    if FromOutside(l) { OutsideWork(a, w, l); } else if OfTick(l) { TickWork(a, w, l); } else { AttemptWork(a, w, l); }
  }

  lemma {:induction false} ShapeKept(a: Assumptions, w: World, run: seq<Label>)
    requires OrderInv(w) && WorkInv(w) && Legal(a, w, run)
    ensures var v := Run(a, w, run); OrderInv(v) && WorkInv(v)
    decreases |run|
  {
    if run != [] {
      ShapeStep(a, w, run[0]);
      ShapeKept(a, Apply(a, w, run[0]), run[1..]);
    }
  }
}

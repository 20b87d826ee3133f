// The hedge has no write before it: how often it can be placed, and when it is not placed at all.
module FlowHedge {
  import opened Options
  import opened FlowModel
  import opened FlowTheorems
  import opened FlowLandings
  import opened FlowLandingTheorems
  import opened FlowReach

  // ---- What places the hedge again ----

  /** The process dies with an order accepted and not written. */
  predicate CrashesOrdered(w: World, l: Label) { l.Crash? && w.worker.Ordered? }

  /** The venue places the short and no acknowledgement arrives in time. */
  predicate GoesUnanswered(w: World, l: Label) { l == Submit(Unacknowledged) }

  /** The accepted order the worker holds, or the one the document records. */
  ghost function Answered(w: World): nat
    requires WellFormed(w.flow)
  {
    One(w.worker.Ordered? || (w.flow.steps[SHORT].result.Some? && w.flow.steps[SHORT].result.value.Shorted?))
  }

  /** The hedge is never in doubt on chain, and records nothing until it is done. */
  ghost predicate OffChain(w: World)
    requires WellFormed(w.flow)
  {
    var s := w.flow.steps[SHORT];
    (s.status.Pending? || s.status.Failed? || s.status.Done?) && (s.result.Some? ==> s.status.Done?)
  }

  /** Only asking the venue places an order, and only a worker on the hedge asks it. */
  lemma OnlySubmitOrders(w: World, l: Label)
    requires WellFormed(w.flow) && Enabled(ALL, w, l)
    ensures if l.Submit? then Working(w.worker) == Some(SHORT) else Apply(ALL, w, l).chain.orders == w.chain.orders
  {
  }

  /** A label on an earlier step, or after the last, leaves the hedge and its orders alone, and nobody is on it. */
  lemma HedgeUntouched(w: World, l: Label)
    requires OrderInv(w) && WorkInv(w) && Enabled(ALL, w, l) && FirstOpen(w.flow) != SHORT
    ensures var v := Apply(ALL, w, l);
            WellFormed(v.flow) && v.flow.steps[SHORT] == w.flow.steps[SHORT] && v.chain.orders == w.chain.orders && !Busy(v, SHORT) && !Busy(w, SHORT)
  {
    OpenStep(ALL, w, l);
    OnlySubmitOrders(w, l);
  }

  /** The labels that place an order, lose one or record one. */
  predicate OnOrder(l: Label) { l.Submit? || l.RecordShort? || l.Crash? }

  lemma OrderMoves(w: World, l: Label)
    requires OrderInv(w) && WorkInv(w) && OffChain(w) && Enabled(ALL, w, l) && FirstOpen(w.flow) == SHORT && OnOrder(l)
    ensures var v := Apply(ALL, w, l);
            && WellFormed(v.flow) && OffChain(v)
            && |v.chain.orders| + Answered(w) == |w.chain.orders| + Answered(v) + One(CrashesOrdered(w, l)) + One(GoesUnanswered(w, l))
  {
  }

  lemma OrderStays(w: World, l: Label)
    requires OrderInv(w) && WorkInv(w) && OffChain(w) && Enabled(ALL, w, l) && FirstOpen(w.flow) == SHORT && !OnOrder(l)
    ensures var v := Apply(ALL, w, l);
            WellFormed(v.flow) && OffChain(v) && v.chain.orders == w.chain.orders && Answered(v) == Answered(w)
  {
    OnlySubmitOrders(w, l);
    if OfTick(l) { TickStays(w, l); }
  }

  lemma TickStays(w: World, l: Label)
    requires OrderInv(w) && WorkInv(w) && OffChain(w) && Enabled(ALL, w, l) && FirstOpen(w.flow) == SHORT && OfTick(l)
    ensures var v := Apply(ALL, w, l);
            WellFormed(v.flow) && OffChain(v) && Answered(v) == Answered(w)
  {
  }

  lemma OrderStep(w: World, l: Label)
    requires OrderInv(w) && WorkInv(w) && OffChain(w) && Enabled(ALL, w, l)
    ensures var v := Apply(ALL, w, l);
            && WellFormed(v.flow) && OffChain(v)
            && |v.chain.orders| + Answered(w) == |w.chain.orders| + Answered(v) + One(CrashesOrdered(w, l)) + One(GoesUnanswered(w, l))
  {
    if FirstOpen(w.flow) != SHORT {
      HedgeUntouched(w, l);
    } else if OnOrder(l) {
      OrderMoves(w, l);
    } else {
      OrderStays(w, l);
    }
  }

  lemma {:induction false} OrdersOverRun(w: World, run: seq<Label>)
    requires OrderInv(w) && WorkInv(w) && OffChain(w) && Legal(ALL, w, run)
    ensures var v := Run(ALL, w, run);
            && WellFormed(v.flow)
            && |v.chain.orders| + Answered(w)
               == |w.chain.orders| + Answered(v) + Count(ALL, w, run, CrashesOrdered) + Count(ALL, w, run, GoesUnanswered)
    decreases |run|
  {
    if run != [] {
      OrderStep(w, run[0]);
      ShapeStep(ALL, w, run[0]);
      OrdersOverRun(Apply(ALL, w, run[0]), run[1..]);
    }
  }

  /** In every run the orders placed are the one in hand or on record, one for each crash that lost an accepted one, and one for each that went unanswered. */
  lemma OrdersCounted(w: World, run: seq<Label>)
    requires Initial(w) && Legal(ALL, w, run)
    ensures var v := Run(ALL, w, run);
            && WellFormed(v.flow)
            && |v.chain.orders| == Answered(v) + Count(ALL, w, run, CrashesOrdered) + Count(ALL, w, run, GoesUnanswered)
  {
    InitialShape(w);
    OrdersOverRun(w, run);
  }

  // ---- With missing answers alone, the attempts bound it ----

  /** A crash after the venue was asked for the short and before what came of it is written, a failure included. */
  predicate LosesAnswer(w: World, l: Label) { l.Crash? && (w.worker.Ordered? || (w.worker.Caught? && w.worker.i == SHORT)) }

  /** How many more orders the step can place while every answer, or its absence, is written. */
  ghost function OrdersLeft(w: World): nat
    requires WellFormed(w.flow)
  {
    var s, k := w.flow.steps[SHORT], w.worker;
    if !s.status.Pending? then (if s.status.Failed? then AtLeast(0, MAX_ATTEMPTS - s.attempts) else 0)
    else if !Busy(w, SHORT) then AtLeast(1, MAX_ATTEMPTS - s.attempts)
    else if k.Planning? then AtLeast(1, MAX_ATTEMPTS - s.attempts + 1)
    else AtLeast(0, MAX_ATTEMPTS - s.attempts)
  }

  lemma OrdersLeftStep(w: World, l: Label)
    requires OrderInv(w) && WorkInv(w) && OffChain(w) && Enabled(ALL, w, l) && !LosesAnswer(w, l)
    ensures var v := Apply(ALL, w, l);
            WellFormed(v.flow) && OffChain(v) && |v.chain.orders| + OrdersLeft(v) <= |w.chain.orders| + OrdersLeft(w)
  {
    if FirstOpen(w.flow) == SHORT { HedgeStep(w, l); } else { EarlierStep(w, l); }
  }

  lemma HedgeStep(w: World, l: Label)
    requires OrderInv(w) && WorkInv(w) && OffChain(w) && Enabled(ALL, w, l) && !LosesAnswer(w, l) && FirstOpen(w.flow) == SHORT
    ensures var v := Apply(ALL, w, l);
            WellFormed(v.flow) && OffChain(v) && |v.chain.orders| + OrdersLeft(v) <= |w.chain.orders| + OrdersLeft(w)
  {
    if OnOrder(l) { OrderMoves(w, l); } else { OrderStays(w, l); }
  }

  lemma EarlierStep(w: World, l: Label)
    requires OrderInv(w) && WorkInv(w) && OffChain(w) && Enabled(ALL, w, l) && FirstOpen(w.flow) != SHORT
    ensures var v := Apply(ALL, w, l);
            WellFormed(v.flow) && OffChain(v) && |v.chain.orders| + OrdersLeft(v) <= |w.chain.orders| + OrdersLeft(w)
  {
    HedgeUntouched(w, l);
  }

  lemma {:induction false} OrdersLeftOverRun(w: World, run: seq<Label>)
    requires OrderInv(w) && WorkInv(w) && OffChain(w) && Legal(ALL, w, run) && Count(ALL, w, run, LosesAnswer) == 0
    ensures |Run(ALL, w, run).chain.orders| <= |w.chain.orders| + OrdersLeft(w)
    decreases |run|
  {
    if run != [] {
      OrdersLeftStep(w, run[0]);
      ShapeStep(ALL, w, run[0]);
      OrdersLeftOverRun(Apply(ALL, w, run[0]), run[1..]);
    }
  }

  /** While no answer is lost to a crash, the short is placed at most MAX_ATTEMPTS times, however many answers are missing. */
  lemma OrdersWithinAttempts(w: World, run: seq<Label>)
    requires Initial(w) && Legal(ALL, w, run) && Count(ALL, w, run, LosesAnswer) == 0
    ensures |Run(ALL, w, run).chain.orders| <= MAX_ATTEMPTS
  {
    InitialShape(w);
    OrdersLeftOverRun(w, run);
  }

  // ---- Runs that place it again ----

  /** The hedge is next, with one MON behind it, and may be tried. */
  ghost predicate HedgeDue(w: World) {
    Due(w) && FirstOpen(w.flow) == SHORT && Startable(w.flow.steps[SHORT]) && ShortSize(w.flow) == 1
  }

  lemma HedgeStarts(w: World, run: seq<Label>) returns (longer: seq<Label>)
    requires Legal(ALL, w, run) && HedgeDue(Run(ALL, w, run))
    ensures longer == run + [Start] && Legal(ALL, w, longer)
    ensures var u, v := Run(ALL, w, run), Run(ALL, w, longer);
            && v.chain == u.chain && v.worker == Planning(SHORT) && v.flow.status.Running?
            && OnlyStep(u, v, SHORT) && v.flow.steps[SHORT] == u.flow.steps[SHORT].(status := Pending, attempts := u.flow.steps[SHORT].attempts + 1)
  {
    var v;
    longer, v := Extend(ALL, w, run, Start);
  }

  lemma OrderPlaced(w: World, run: seq<Label>, reply: Reply) returns (longer: seq<Label>)
    requires Legal(ALL, w, run) && HedgeDue(Run(ALL, w, run)) && !reply.Refused?
    ensures longer == run + [Start] + [Submit(reply)] && Legal(ALL, w, longer)
    ensures var u, v := Run(ALL, w, run), Run(ALL, w, longer);
            && |v.chain.orders| == |u.chain.orders| + 1 && v.worker == (if reply.Accepted? then Ordered(SHORT, 1) else Caught(SHORT))
            && OnlyStep(u, v, SHORT) && v.flow.steps[SHORT] == u.flow.steps[SHORT].(status := Pending, attempts := u.flow.steps[SHORT].attempts + 1)
  {
    var run1 := HedgeStarts(w, run);
    FirstOpenAt(Run(ALL, w, run1).flow, SHORT);
    var run2, w2 := Extend(ALL, w, run1, Submit(reply));
    longer := run2;
  }

  /** The venue accepts, the process dies before that is written, and the next tick may try again. */
  lemma OrderLost(w: World, run: seq<Label>) returns (longer: seq<Label>)
    requires Legal(ALL, w, run) && HedgeDue(Run(ALL, w, run)) && Submit(Unacknowledged) !in run
    ensures Legal(ALL, w, longer) && HedgeDue(Run(ALL, w, longer)) && Submit(Unacknowledged) !in longer
    ensures |Run(ALL, w, longer).chain.orders| == |Run(ALL, w, run).chain.orders| + 1
  {
    var run1 := OrderPlaced(w, run, Accepted);
    var run2, w2 := Extend(ALL, w, run1, Crash);
    FirstOpenAt(w2.flow, SHORT);
    longer := run2;
  }

  /** The error path of the hedge: the step is failed, and may be tried again while attempts remain. */
  lemma GivenUp(w: World, run: seq<Label>) returns (longer: seq<Label>)
    requires Legal(ALL, w, run)
    requires var u := Run(ALL, w, run);
             && WellFormed(u.flow) && u.flow.status.Running? && FirstOpen(u.flow) == SHORT && u.worker == Caught(SHORT)
             && u.flow.steps[SHORT].attempts <= MAX_ATTEMPTS && ShortSize(u.flow) == 1
    ensures longer == run + [Catch] + [Close] && Legal(ALL, w, longer)
    ensures var u, v := Run(ALL, w, run), Run(ALL, w, longer);
            && v.chain == u.chain && WellFormed(v.flow) && v.flow.steps[SHORT].attempts == u.flow.steps[SHORT].attempts
            && (v.flow.steps[SHORT].attempts < MAX_ATTEMPTS ==> HedgeDue(v))
  {
    var run2, w2 := Extend(ALL, w, run, Catch);
    FirstOpenAt(w2.flow, SHORT);
    var run3, w3 := Extend(ALL, w, run2, Close);
    longer := run3;
  }

  /** The venue places the order and the wait times out. */
  lemma OrderUnanswered(w: World, run: seq<Label>) returns (longer: seq<Label>)
    requires Legal(ALL, w, run) && HedgeDue(Run(ALL, w, run)) && Run(ALL, w, run).flow.steps[SHORT].attempts < MAX_ATTEMPTS && Crash !in run
    ensures Legal(ALL, w, longer) && Crash !in longer
    ensures var u, v := Run(ALL, w, run), Run(ALL, w, longer);
            && |v.chain.orders| == |u.chain.orders| + 1 && WellFormed(v.flow)
            && v.flow.steps[SHORT].attempts == u.flow.steps[SHORT].attempts + 1
            && (v.flow.steps[SHORT].attempts < MAX_ATTEMPTS ==> HedgeDue(v))
  {
    var run1 := OrderPlaced(w, run, Unacknowledged);
    FirstOpenAt(Run(ALL, w, run1).flow, SHORT);
    longer := GivenUp(w, run1);
  }

  lemma ReachHedge(w: World) returns (run: seq<Label>)
    requires Initial(w) && MonShare(w.flow) > 0
    ensures Legal(ALL, w, run) && HedgeDue(Run(ALL, w, run)) && Submit(Unacknowledged) !in run && Crash !in run
    ensures Run(ALL, w, run).chain.orders == [] && Run(ALL, w, run).flow.steps[SHORT].attempts == 0
  {
    run := ReachShort(w);
    assert !QuietLabel(Submit(Unacknowledged)) && !QuietLabel(Crash);
  }

  lemma {:induction false} OrdersLost(w: World, n: nat) returns (run: seq<Label>)
    requires Initial(w) && MonShare(w.flow) > 0
    ensures Legal(ALL, w, run) && HedgeDue(Run(ALL, w, run)) && Submit(Unacknowledged) !in run
    ensures |Run(ALL, w, run).chain.orders| == n
    decreases n
  {
    if n == 0 {
      run := ReachHedge(w);
    } else {
      run := OrdersLost(w, n - 1);
      run := OrderLost(w, run);
    }
  }

  /** From every new flow that buys MON, for every n, a run with no missing answer places the short n times. */
  lemma OrdersWithoutEnd(w: World, n: nat) returns (run: seq<Label>)
    requires Initial(w) && MonShare(w.flow) > 0
    ensures Legal(ALL, w, run) && |Run(ALL, w, run).chain.orders| == n && Count(ALL, w, run, GoesUnanswered) == 0
  {
    run := OrdersLost(w, n);
    AbsentCountsNothing(ALL, w, run, Submit(Unacknowledged), GoesUnanswered);
  }

  lemma {:induction false} OrdersMissing(w: World, n: nat) returns (run: seq<Label>)
    requires Initial(w) && MonShare(w.flow) > 0 && n <= MAX_ATTEMPTS
    ensures Legal(ALL, w, run) && Crash !in run
    ensures var v := Run(ALL, w, run);
            |v.chain.orders| == n && WellFormed(v.flow) && v.flow.steps[SHORT].attempts == n && (n < MAX_ATTEMPTS ==> HedgeDue(v))
    decreases n
  {
    if n == 0 {
      run := ReachHedge(w);
    } else {
      run := OrdersMissing(w, n - 1);
      run := OrderUnanswered(w, run);
    }
  }

  /** And with no crash at all after the venue was asked, n times for every n up to MAX_ATTEMPTS. */
  lemma OrdersUnanswered(w: World, n: nat) returns (run: seq<Label>)
    requires Initial(w) && MonShare(w.flow) > 0 && n <= MAX_ATTEMPTS
    ensures Legal(ALL, w, run) && |Run(ALL, w, run).chain.orders| == n && Count(ALL, w, run, LosesAnswer) == 0
  {
    run := OrdersMissing(w, n);
    AbsentCountsNothing(ALL, w, run, Crash, LosesAnswer);
  }

  /** The runs in which an accepted order is lost to a crash, or an answer missing, only if allowed. */
  ghost predicate Allowed(w: World, run: seq<Label>, lost: bool, missing: bool)
    requires Legal(ALL, w, run)
  {
    (lost || Count(ALL, w, run, CrashesOrdered) == 0) && (missing || Count(ALL, w, run, GoesUnanswered) == 0)
  }

  ghost predicate OneOrder(w: World, lost: bool, missing: bool) {
    forall run: seq<Label> :: Legal(ALL, w, run) && Allowed(w, run, lost, missing) ==> |Run(ALL, w, run).chain.orders| <= 1
  }

  /** The short is placed at most once in every allowed run exactly when no accepted order may be lost and no answer missing. */
  lemma OneOrderExactly(w: World, lost: bool, missing: bool)
    requires Initial(w) && MonShare(w.flow) > 0
    ensures OneOrder(w, lost, missing) <==> !lost && !missing
  {
    if !lost && !missing {
      forall run: seq<Label> | Legal(ALL, w, run) && Allowed(w, run, lost, missing) ensures |Run(ALL, w, run).chain.orders| <= 1 {
        OrdersCounted(w, run);
      }
    } else if lost {
      var run := OrdersWithoutEnd(w, 2);
      assert Allowed(w, run, lost, missing);
    } else {
      var run := OrdersUnanswered(w, 2);
      CountsLess(ALL, w, run, CrashesOrdered, LosesAnswer);
      assert Allowed(w, run, lost, missing);
    }
  }

  /** Runs in which what came of a request is lost to a crash only if allowed; answers may be missing. */
  ghost predicate AtMostOrders(w: World, n: nat, lost: bool) {
    forall run: seq<Label> :: Legal(ALL, w, run) && (lost || Count(ALL, w, run, LosesAnswer) == 0) ==> |Run(ALL, w, run).chain.orders| <= n
  }

  /** Some bound holds of every such run exactly when no outcome may be lost; the least is then MAX_ATTEMPTS. */
  lemma OrdersBoundedExactly(w: World, n: nat, lost: bool)
    requires Initial(w) && MonShare(w.flow) > 0
    ensures AtMostOrders(w, n, lost) <==> !lost && n >= MAX_ATTEMPTS
  {
    if lost {
      var run := OrdersWithoutEnd(w, n + 1);
    } else if n < MAX_ATTEMPTS {
      var run := OrdersUnanswered(w, n + 1);
    } else {
      forall run: seq<Label> | Legal(ALL, w, run) && Count(ALL, w, run, LosesAnswer) == 0 ensures |Run(ALL, w, run).chain.orders| <= n {
        OrdersWithinAttempts(w, run);
      }
    }
  }
}

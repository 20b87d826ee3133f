// Which flow was started for what, told from the history of the run: the deposit a runner was considering, or the
// period it checked and the clock it checked at.
module VaultWindows {
  import opened BlockRanges
  import opened Options
  import opened VaultScan
  import opened VaultScanTheorems

  /** Why a runner wants a flow. */
  datatype Cause = OnDeposit(log: nat) | OnClock(hours: nat, clock: nat)

  /** A flow that was inserted, by its place, and why. */
  datatype Started = Started(at: nat, cause: Cause)

  /** What each runner last decided on, and the flows started so far. */
  datatype Journal = Journal(wants: map<nat, Cause>, started: seq<Started>)

  const NOTHING_YET := Journal(map[], [])

  /** A decision is noted when it is taken, with the clock of that moment; a start counts if a flow was added. */
  ghost function Noted(env: Env, w: World, l: Label, log: Journal): Journal
    requires Enabled(env, w, l)
  {
    match l
    case Check(p, _) => log.(wants := log.wants[p := OnDeposit(w.workers[p].log)])
    case PeriodCheck(p, _, hours) => log.(wants := log.wants[p := OnClock(hours, w.clock)])
    case Start(p) => if |Apply(env, w, l).flows| > |w.flows| && p in log.wants then log.(started := log.started + [Started(|w.flows|, log.wants[p])]) else log
    case StartPeriod(p) => if |Apply(env, w, l).flows| > |w.flows| && p in log.wants then log.(started := log.started + [Started(|w.flows|, log.wants[p])]) else log
    case _ => log
  }

  ghost function JournalOf(env: Env, w: World, run: seq<Label>, log: Journal): Journal
    requires Legal(env, w, run)
    decreases |run|
  {
    if run == [] then log else JournalOf(env, Apply(env, w, run[0]), run[1..], Noted(env, w, run[0], log))
  }

  /** The clock lies in the n-th stretch of that many hours. */
  ghost predicate InWindow(clock: nat, hours: nat, n: nat) { n * hours * 3_600_000 <= clock < (n + 1) * hours * 3_600_000 }

  /** One run may serve both: the same deposit, or the same stretch of the same period. */
  ghost predicate SameTrigger(a: Cause, b: Cause) {
    match a
    case OnDeposit(log) => b == OnDeposit(log)
    case OnClock(hours, clock) => b.OnClock? && b.hours == hours && exists n: nat :: InWindow(clock, hours, n) && InWindow(b.clock, hours, n)
  }

  /** The key names the cause. */
  ghost predicate Names(key: Key, c: Cause) {
    match c
    case OnDeposit(log) => key == DepositKey(log)
    case OnClock(hours, clock) => key.PeriodKey? && key.hours == hours && (hours == 12 || hours == 24) && InWindow(clock, hours, key.window)
  }

  /** Two causes have one key exactly when one run may serve both. */
  lemma NamesExactly(k: Key, a: Cause, m: Key, b: Cause)
    requires Names(k, a) && Names(m, b)
    ensures k == m <==> SameTrigger(a, b)
  {
    if a.OnClock? && b.OnClock? && a.hours == b.hours {
      if SameTrigger(a, b) {
        var n: nat :| InWindow(a.clock, a.hours, n) && InWindow(b.clock, a.hours, n);
        OneWindow(a.clock, a.hours, n, k.window);
        OneWindow(b.clock, a.hours, n, m.window);
      }
    }
  }

  lemma OneWindow(clock: nat, hours: nat, n: nat, m: nat)
    requires (hours == 12 || hours == 24) && InWindow(clock, hours, n) && InWindow(clock, hours, m)
    ensures n == m
  {
    if hours == 12 {
      assert n * 12 * 3_600_000 == n * 43_200_000 && m * 12 * 3_600_000 == m * 43_200_000;
    } else {
      assert n * 24 * 3_600_000 == n * 86_400_000 && m * 24 * 3_600_000 == m * 86_400_000;
    }
  }

  lemma CheckedWindow(hours: nat, clock: nat)
    requires hours == 12 || hours == 24
    ensures Names(WindowKey(hours, clock), OnClock(hours, clock))
  {
    var n := WindowKey(hours, clock).window;
    if hours == 12 {
      assert n * 12 * 3_600_000 == n * 43_200_000;
    } else {
      assert n * 24 * 3_600_000 == n * 86_400_000;
    }
  }

  // ---- What every run keeps ----

  ghost predicate WantOk(k: VaultScan.Worker, p: nat, log: Journal) {
    && (k.Starting? ==> p in log.wants && log.wants[p] == OnDeposit(k.log))
    && (k.StartingPeriod? ==> p in log.wants && Names(k.key, log.wants[p]))
  }

  ghost predicate StartedOk(w: World, s: Started) { s.at < |w.flows| && Names(w.flows[s.at].key, s.cause) }

  ghost predicate JournalInv(w: World, log: Journal) {
    && (forall p :: 0 <= p < |w.workers| ==> WantOk(w.workers[p], p, log))
    && (forall k :: 0 <= k < |log.started| ==> StartedOk(w, log.started[k]))
    && (forall j, k :: 0 <= j < k < |log.started| ==> log.started[j].at < log.started[k].at)
  }

  /** Flows keep their keys, and at most one is added. */
  lemma KeysStay(env: Env, w: World, l: Label)
    requires Enabled(env, w, l)
    ensures var v := Apply(env, w, l);
            && |w.flows| <= |v.flows| <= |w.flows| + 1
            && forall k :: 0 <= k < |w.flows| ==> v.flows[k].key == w.flows[k].key
  {
    if !l.Start? && !l.StartPeriod? && !l.Finish? { FlowsUntouched(env, w, l); }
  }

  lemma WantsStep(env: Env, w: World, l: Label, log: Journal, p: nat)
    requires Enabled(env, w, l) && p < |w.workers| && WantOk(w.workers[p], p, log)
    ensures |Apply(env, w, l).workers| == |w.workers| && WantOk(Apply(env, w, l).workers[p], p, Noted(env, w, l, log))
  {
    if l.PeriodCheck? { CheckedWindow(l.hours, w.clock); }
  }

  lemma AddedFlow(env: Env, w: World, l: Label, log: Journal)
    requires Enabled(env, w, l) && JournalInv(w, log) && (l.Start? || l.StartPeriod?) && |Apply(env, w, l).flows| > |w.flows|
    ensures l.p in log.wants && StartedOk(Apply(env, w, l), Started(|w.flows|, log.wants[l.p]))
  {
    assert WantOk(w.workers[l.p], l.p, log);
  }

  lemma JournalStep(env: Env, w: World, l: Label, log: Journal)
    requires Enabled(env, w, l) && JournalInv(w, log)
    ensures JournalInv(Apply(env, w, l), Noted(env, w, l, log))
  {
    var v, after := Apply(env, w, l), Noted(env, w, l, log);
    KeysStay(env, w, l);
    forall p | 0 <= p < |v.workers| ensures WantOk(v.workers[p], p, after) {
      assert |v.workers| == |w.workers|;
      assert WantOk(w.workers[p], p, log);
      WantsStep(env, w, l, log, p);
    }
    if (l.Start? || l.StartPeriod?) && |v.flows| > |w.flows| { AddedFlow(env, w, l, log); }
    forall k | 0 <= k < |after.started| ensures StartedOk(v, after.started[k]) {
      if k < |log.started| { assert StartedOk(w, log.started[k]); }
    }
    forall j, k | 0 <= j < k < |after.started| ensures after.started[j].at < after.started[k].at {
      assert StartedOk(w, log.started[j]);
    }
  }

  lemma {:induction false} JournalKept(env: Env, w: World, run: seq<Label>, log: Journal)
    requires JournalInv(w, log) && Legal(env, w, run)
    ensures JournalInv(Run(env, w, run), JournalOf(env, w, run, log))
    decreases |run|
  {
    if run != [] {
      JournalStep(env, w, run[0], log);
      JournalKept(env, Apply(env, w, run[0]), run[1..], Noted(env, w, run[0], log));
    }
  }

  /** Every flow is in the journal: none is started for any other reason. */
  ghost predicate AllLogged(w: World, log: Journal) { |log.started| == |w.flows| }

  lemma LoggedStep(env: Env, w: World, l: Label, log: Journal)
    requires Enabled(env, w, l) && JournalInv(w, log) && AllLogged(w, log)
    ensures AllLogged(Apply(env, w, l), Noted(env, w, l, log))
  {
    KeysStay(env, w, l);
    if l.Start? || l.StartPeriod? {
      assert WantOk(w.workers[l.p], l.p, log);
    } else if !l.Finish? {
      FlowsUntouched(env, w, l);
    }
  }

  lemma {:induction false} EveryFlowHasCause(env: Env, w: World, run: seq<Label>, log: Journal)
    requires JournalInv(w, log) && AllLogged(w, log) && Legal(env, w, run)
    ensures AllLogged(Run(env, w, run), JournalOf(env, w, run, log))
    decreases |run|
  {
    if run != [] {
      LoggedStep(env, w, run[0], log);
      JournalStep(env, w, run[0], log);
      EveryFlowHasCause(env, Apply(env, w, run[0]), run[1..], Noted(env, w, run[0], log));
    }
  }

  /**
   Over every run of any number of runners, no two flows were started for one deposit, or for checks of one period at
   clocks in one of its stretches. And what two runners are about to start has one key exactly in those cases: a
   check never takes the key of another period, of another stretch, or of a deposit. Every flow has one such cause.
   */
  lemma OneFlowPerTrigger(env: Env, head: nat, clock: nat, n: nat, run: seq<Label>)
    requires Legal(env, Fresh(head, clock, n), run)
    ensures var log := JournalOf(env, Fresh(head, clock, n), run, NOTHING_YET);
            forall j, k :: 0 <= j < k < |log.started| ==> !SameTrigger(log.started[j].cause, log.started[k].cause)
    ensures |JournalOf(env, Fresh(head, clock, n), run, NOTHING_YET).started| == |Run(env, Fresh(head, clock, n), run).flows|
    ensures var v, log := Run(env, Fresh(head, clock, n), run), JournalOf(env, Fresh(head, clock, n), run, NOTHING_YET);
            forall p, q :: 0 <= p < |v.workers| && 0 <= q < |v.workers| && v.workers[p].StartingPeriod? && v.workers[q].StartingPeriod? ==>
              p in log.wants && q in log.wants && (v.workers[p].key == v.workers[q].key <==> SameTrigger(log.wants[p], log.wants[q]))
  {
    var w := Fresh(head, clock, n);
    JournalKept(env, w, run, NOTHING_YET);
    TriggersOnce(env, w, run);
    EveryFlowHasCause(env, w, run, NOTHING_YET);
    var v, log := Run(env, w, run), JournalOf(env, w, run, NOTHING_YET);
    forall j, k | 0 <= j < k < |log.started| ensures !SameTrigger(log.started[j].cause, log.started[k].cause) {
      assert StartedOk(v, log.started[j]) && StartedOk(v, log.started[k]);
      NamesExactly(v.flows[log.started[j].at].key, log.started[j].cause, v.flows[log.started[k].at].key, log.started[k].cause);
    }
    forall p, q | 0 <= p < |v.workers| && 0 <= q < |v.workers| && v.workers[p].StartingPeriod? && v.workers[q].StartingPeriod?
      ensures p in log.wants && q in log.wants && (v.workers[p].key == v.workers[q].key <==> SameTrigger(log.wants[p], log.wants[q]))
    {
      assert WantOk(v.workers[p], p, log) && WantOk(v.workers[q], q, log);
      NamesExactly(v.workers[p].key, log.wants[p], v.workers[q].key, log.wants[q]);
    }
  }
}

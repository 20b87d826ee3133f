/** What any number of ticks, crashes and head movements leave behind. */
module VaultScanTheorems {
  import opened BlockRanges
  import opened Options
  import opened VaultScan

  lemma {:induction false} RunConcat(env: Env, w: World, first: seq<Label>, second: seq<Label>)
    requires Legal(env, w, first) && Legal(env, Run(env, w, first), second)
    ensures Legal(env, w, first + second) && Run(env, w, first + second) == Run(env, Run(env, w, first), second)
    decreases |first|
  {
    if first == [] {
      assert first + second == second;
    } else {
      assert (first + second)[0] == first[0] && (first + second)[1..] == first[1..] + second;
      RunConcat(env, Apply(env, w, first[0]), first[1..], second);
    }
  }

  lemma Extend(env: Env, w: World, run: seq<Label>, l: Label) returns (longer: seq<Label>, v: World)
    requires Legal(env, w, run) && Enabled(env, Run(env, w, run), l)
    ensures longer == run + [l] && Legal(env, w, longer) && v == Run(env, w, longer) == Apply(env, Run(env, w, run), l)
  {
    assert [l][1..] == [];
    RunConcat(env, w, run, [l]);
    longer, v := run + [l], Apply(env, Run(env, w, run), l);
  }

  // ---- Recording ----

  ghost predicate Once(activity: seq<nat>) { forall i, j :: 0 <= i < j < |activity| ==> activity[i] != activity[j] }

  lemma {:induction false} OnceKept(env: Env, w: World, run: seq<Label>)
    requires Once(w.activity) && Legal(env, w, run)
    ensures Once(Run(env, w, run).activity)
    decreases |run|
  {
    if run != [] {
      OnceKept(env, Apply(env, w, run[0]), run[1..]);
    }
  }

  ghost predicate NothingLost(run: seq<Label>) { forall l :: l in run ==> Kept(l) }

  /** Every vault log from the first scanned block to the cursor has exactly one document. */
  ghost predicate ScannedOnce(env: Env, w: World) {
    && Once(w.activity)
    && (w.cursor.Some? ==> w.origin.Some? && Recorded(env, w.activity, w.origin.value, w.cursor.value + 1))
  }

  lemma ScanComplete(env: Env, head: nat, clock: nat, n: nat, run: seq<Label>)
    requires Legal(env, Fresh(head, clock, n), run) && NothingLost(run)
    ensures ScannedOnce(env, Run(env, Fresh(head, clock, n), run))
    ensures Distinct(env) ==> OneDocumentEach(env, Run(env, Fresh(head, clock, n), run))
  {
    ScanKept(env, Fresh(head, clock, n), run);
    OnceKept(env, Fresh(head, clock, n), run);
    if Distinct(env) { DocumentsMatchLogs(env, Run(env, Fresh(head, clock, n), run)); }
  }

  /** Document k is that of the log in place i of block b. */
  ghost predicate Documents(env: Env, w: World, k: nat, b: nat, i: nat) {
    k < |w.activity| && i < |env.logs(b)| && w.activity[k] == env.logs(b)[i].id
  }

  ghost predicate Documented(env: Env, w: World, b: nat, i: nat) { exists k: nat :: Documents(env, w, k, b, i) }

  /** The logs of the stretch and their documents match one to one. */
  ghost predicate OneDocumentEach(env: Env, w: World) {
    && (forall k: nat, m: nat, b: nat, i: nat :: Documents(env, w, k, b, i) && Documents(env, w, m, b, i) ==> k == m)
    && (forall k: nat, b: nat, i: nat, c: nat, j: nat :: Documents(env, w, k, b, i) && Documents(env, w, k, c, j) ==> b == c && i == j)
    && (w.cursor.Some? ==>
          && w.origin.Some?
          && forall b: nat, i: nat :: w.origin.value <= b <= w.cursor.value && i < |env.logs(b)| ==> Documented(env, w, b, i))
  }

  lemma DocumentsMatchLogs(env: Env, w: World)
    requires Distinct(env) && ScannedOnce(env, w)
    ensures OneDocumentEach(env, w)
  {
    if w.cursor.Some? {
      forall b: nat, i: nat | w.origin.value <= b <= w.cursor.value && i < |env.logs(b)| ensures Documented(env, w, b, i) {
        assert env.logs(b)[i].id in w.activity;
        var k :| 0 <= k < |w.activity| && w.activity[k] == env.logs(b)[i].id;
        assert Documents(env, w, k, b, i);
      }
    }
  }

  /** `lossy` allows an activity write to fail, which the recorder swallows. */
  ghost predicate Allowed(run: seq<Label>, lossy: bool) { lossy || NothingLost(run) }

  /** In every state of every such run the cursor's claim holds. */
  ghost predicate AlwaysScanned(env: Env, head: nat, lossy: bool) {
    forall clock: nat, n: nat, run: seq<Label> :: Legal(env, Fresh(head, clock, n), run) && Allowed(run, lossy) ==>
      ScannedOnce(env, Run(env, Fresh(head, clock, n), run))
  }

  /** The scan of block `head` alone, its only log being lost. */
  lemma LoseOne(env: Env, head: nat, log: Log) returns (run: seq<Label>)
    requires env.logs(head) == [log] && !log.deposit
    ensures Legal(env, Fresh(head, 0, 1), run) && !ScannedOnce(env, Run(env, Fresh(head, 0, 1), run))
  {
    var w := Fresh(head, 0, 1);
    var v;
    run, v := Extend(env, w, [], StartTick(0));
    run, v := Extend(env, w, run, Scan(0));
    run, v := Extend(env, w, run, Fetch(0));
    assert LogsIn(env.logs, head, head) == [log];
    run := DropOne(env, w, run, head, log);
  }

  /** The write is lost and the cursor moves past it. */
  lemma DropOne(env: Env, w: World, run: seq<Label>, head: nat, log: Log) returns (longer: seq<Label>)
    requires Legal(env, w, run) && env.logs(head) == [log] && !log.deposit
    requires var u := Run(env, w, run); u.workers == [Chunk(head, head, head, head, [log])] && u.activity == [] && u.origin.None?
    ensures Legal(env, w, longer) && !ScannedOnce(env, Run(env, w, longer))
  {
    var v;
    longer, v := Extend(env, w, run, Note(0, false));
    longer, v := Extend(env, w, longer, SaveCursor(0));
    assert v.cursor == Some(head) && v.origin == Some(head) && env.logs(head)[0].id !in v.activity;
  }

  /** The cursor's claim needs every activity write: a swallowed failure leaves a hole the scan does not return to. */
  lemma ScannedExactlyWhenKept(env: Env, head: nat, lossy: bool)
    requires |env.logs(head)| == 1 && !env.logs(head)[0].deposit
    ensures AlwaysScanned(env, head, lossy) <==> !lossy
  {
    if lossy {
      var run := LoseOne(env, head, env.logs(head)[0]);
      assert Allowed(run, lossy);
    } else {
      forall clock: nat, n: nat, run: seq<Label> | Legal(env, Fresh(head, clock, n), run) && Allowed(run, lossy)
        ensures ScannedOnce(env, Run(env, Fresh(head, clock, n), run))
      {
        ScanComplete(env, head, clock, n, run);
      }
    }
  }

  // ---- How much a tick scans ----

  /** How many chunks a run queries. */
  ghost function Fetches(run: seq<Label>): nat { if run == [] then 0 else (if run[0].Fetch? then 1 else 0) + Fetches(run[1..]) }

  lemma {:induction false} FetchesConcat(first: seq<Label>, second: seq<Label>)
    ensures Fetches(first + second) == Fetches(first) + Fetches(second)
  {
    if first == [] {
      assert first + second == second;
    } else {
      assert (first + second)[0] == first[0] && (first + second)[1..] == first[1..] + second;
      FetchesConcat(first[1..], second);
    }
  }

  /** The next chunk of a quiet vault: nothing to note, and the cursor is saved. */
  lemma QuietChunk(u: World) returns (run: seq<Label>)
    requires |u.workers| == 1 && u.workers[0].Scanning? && u.workers[0].from <= u.workers[0].ceiling
    ensures Legal(QUIET, u, run) && Fetches(run) == 1 && OneTick(run)
    ensures var k := u.workers[0];
            var v, to := Run(QUIET, u, run), Min(k.ceiling, k.from + CHUNK - 1);
            v.workers == [Scanning(k.base, to + 1, k.ceiling)] && v.cursor == Some(to)
  {
    var k := u.workers[0];
    var run1, w1 := Extend(QUIET, u, [], Fetch(0));
    QuietLogs(k.from, Min(k.ceiling, k.from + CHUNK - 1));
    var run2, w2 := Extend(QUIET, u, run1, SaveCursor(0));
    run := run2;
    assert run == [Fetch(0), SaveCursor(0)] && run[1..] == [SaveCursor(0)] && run[1..][1..] == [];
    assert Fetches(run[1..]) == 0;
  }

  lemma {:induction false} QuietLogs(from: nat, to: nat)
    ensures LogsIn(QUIET.logs, from, to) == []
    decreases if to < from then 0 else to - from + 1
  {
    if from <= to { QuietLogs(from + 1, to); }
  }

  /** n full chunks and one of a single block. */
  lemma {:induction false} QuietChunks(u: World, n: nat) returns (run: seq<Label>)
    requires |u.workers| == 1 && u.workers[0].Scanning? && u.workers[0].ceiling == u.workers[0].from + n * CHUNK
    ensures Legal(QUIET, u, run) && Fetches(run) == n + 1 && OneTick(run)
    ensures var k, v := u.workers[0], Run(QUIET, u, run);
            v.workers == [Scanning(k.base, k.ceiling + 1, k.ceiling)] && v.cursor == Some(k.ceiling)
    decreases n
  {
    run := QuietChunk(u);
    if n > 0 {
      var rest := QuietChunks(Run(QUIET, u, run), n - 1);
      RunConcat(QUIET, u, run, rest);
      FetchesConcat(run, rest);
      run := run + rest;
    }
  }

  ghost predicate OneTick(run: seq<Label>) { forall l :: l in run ==> !l.StartTick? }

  /** One chunk more than the limit: a tick that finds the head SPAN blocks past its first block, or further. */
  lemma TickExceedsLimit() returns (before: seq<Label>, tick: seq<Label>)
    ensures Legal(QUIET, Fresh(0, 0, 1), before + tick) && Legal(QUIET, Fresh(0, 0, 1), before)
    ensures Run(QUIET, Fresh(0, 0, 1), before).workers == [Awake] && OneTick(tick)
    ensures Fetches(tick) == MAX_CHUNKS_PER_TICK + 1 && Run(QUIET, Fresh(0, 0, 1), before + tick).cursor == Some(1 + SPAN)
  {
    var w := Fresh(0, 0, 1);
    before := QuietTick(QUIET, w, [], 0);
    var v;
    before, v := Extend(QUIET, w, before, Stop(0));
    before, v := Extend(QUIET, w, before, Head(1 + SPAN));
    before, v := Extend(QUIET, w, before, StartTick(0));
    assert v.workers == [Awake] && v.cursor == Some(0);
    var scan, u := Extend(QUIET, v, [], Scan(0));
    assert u.workers == [u.workers[0]] && u.workers[0].from == 1 && u.workers[0].ceiling == 1 + MAX_CHUNKS_PER_TICK * CHUNK;
    var chunks := QuietChunks(u, MAX_CHUNKS_PER_TICK);
    RunConcat(QUIET, v, scan, chunks);
    FetchesConcat(scan, chunks);
    assert scan == [Scan(0)] && scan[1..] == [];
    tick := scan + chunks;
    RunConcat(QUIET, w, before, tick);
  }

  // ---- The origin ----

  ghost predicate OriginInv(w: World) {
    && |w.workers| == 1
    && (w.cursor.Some? <==> w.origin.Some?)
    && var k := w.workers[0];
      w.origin.Some? && (k.Scanning? || k.Chunk? || k.Considering? || k.Starting?) ==> k.base == w.origin.value
  }

  /** With one runner the first scanned block is fixed by the first cursor write, and stays. */
  lemma {:induction false} OriginNeverMoves(env: Env, w: World, run: seq<Label>)
    requires OriginInv(w) && Legal(env, w, run)
    ensures OriginInv(Run(env, w, run)) && (w.origin.Some? ==> Run(env, w, run).origin == w.origin)
    decreases |run|
  {
    if run != [] {
      OriginNeverMoves(env, Apply(env, w, run[0]), run[1..]);
    }
  }

  // ---- One run per trigger ----

  ghost predicate KeysOnce(flows: seq<Flow>) { forall i, j :: 0 <= i < j < |flows| ==> flows[i].key != flows[j].key }

  /** At least the configured minimum, and at least one dollar. */
  ghost predicate Enough(env: Env, usdc: nat) { usdc >= env.minIdle && usdc >= 1_000_000 }

  ghost predicate WorthRunning(env: Env, w: World) {
    && (forall k :: 0 <= k < |w.flows| ==> Enough(env, w.flows[k].usdcIn))
    && (forall p :: 0 <= p < |w.workers| ==>
          (w.workers[p].Starting? || w.workers[p].StartingPeriod? ==> Enough(env, w.workers[p].usdcIn)))
  }

  /** Whatever the number of runners: no trigger key has two flows, and no flow allocates less than the threshold or the floor. */
  lemma {:induction false} TriggersOnce(env: Env, w: World, run: seq<Label>)
    requires KeysOnce(w.flows) && WorthRunning(env, w) && Legal(env, w, run)
    ensures KeysOnce(Run(env, w, run).flows) && WorthRunning(env, Run(env, w, run))
    ensures forall k :: 0 <= k < |Run(env, w, run).flows| ==> Enough(env, Run(env, w, run).flows[k].usdcIn)
    decreases |run|
  {
    if run != [] {
      TriggerStep(env, w, run[0]);
      TriggersOnce(env, Apply(env, w, run[0]), run[1..]);
    }
  }

  lemma TriggerStep(env: Env, w: World, l: Label)
    requires KeysOnce(w.flows) && WorthRunning(env, w) && Enabled(env, w, l)
    ensures KeysOnce(Apply(env, w, l).flows) && WorthRunning(env, Apply(env, w, l))
  {
    if !l.Start? && !l.StartPeriod? && !l.Finish? { FlowsUntouched(env, w, l); }
  }

  lemma FlowsUntouched(env: Env, w: World, l: Label)
    requires Enabled(env, w, l) && !l.Start? && !l.StartPeriod? && !l.Finish?
    ensures Apply(env, w, l).flows == w.flows
  {
  }

  // ---- One flow at a time ----

  ghost predicate OneRunning(flows: seq<Flow>) { forall i, j :: 0 <= i < j < |flows| ==> !flows[i].running || !flows[j].running }

  ghost predicate SingleInv(w: World) {
    && |w.workers| <= 1 && OneRunning(w.flows)
    && (|w.workers| == 1 && (w.workers[0].Starting? || w.workers[0].StartingPeriod?) ==> NoneRunning(w.flows))
  }

  lemma {:induction false} SingleKept(env: Env, w: World, run: seq<Label>)
    requires SingleInv(w) && Legal(env, w, run)
    ensures SingleInv(Run(env, w, run))
    decreases |run|
  {
    if run != [] {
      SingleKept(env, Apply(env, w, run[0]), run[1..]);
    }
  }

  /** Whatever the vault emits, in every run of n runners at most one flow is running at any time. */
  ghost predicate AlwaysOneRunning(n: nat) {
    forall env: Env, head: nat, clock: nat, run: seq<Label> :: Legal(env, Fresh(head, clock, n), run) ==> OneRunning(Run(env, Fresh(head, clock, n), run).flows)
  }

  /** A runner with nothing to scan gets to its periodic check. */
  lemma QuietTick(env: Env, w: World, run: seq<Label>, p: nat) returns (longer: seq<Label>)
    requires Legal(env, w, run) && forall b :: env.logs(b) == []
    requires var u := Run(env, w, run); Has(u, p) && u.workers[p].Idle? && u.cursor.None?
    ensures Legal(env, w, longer)
    ensures var u, v := Run(env, w, run), Run(env, w, longer);
            v == u.(workers := u.workers[p := Scanned], cursor := Some(u.head), origin := v.origin)
  {
    var run1, w1 := Extend(env, w, run, StartTick(p));
    var run2, w2 := Extend(env, w, run1, Scan(p));
    var run3, w3 := Extend(env, w, run2, Fetch(p));
    assert LogsIn(env.logs, w1.head, w1.head) == [];
    var run4, w4 := Extend(env, w, run3, SaveCursor(p));
    var run5, w5 := Extend(env, w, run4, EndScan(p));
    longer := run5;
    assert w5.workers == Run(env, w, run).workers[p := Scanned];
  }

  /** A runner whose cursor is at the head and behind which the head has fallen needs no chunk at all. */
  lemma BehindTick(env: Env, w: World, run: seq<Label>, p: nat) returns (longer: seq<Label>)
    requires Legal(env, w, run)
    requires var u := Run(env, w, run); Has(u, p) && u.workers[p].Idle? && u.cursor == Some(u.head)
    ensures Legal(env, w, longer)
    ensures var u, v := Run(env, w, run), Run(env, w, longer); v == u.(workers := u.workers[p := Scanned])
  {
    var run1, w1 := Extend(env, w, run, StartTick(p));
    var run2, w2 := Extend(env, w, run1, Scan(p));
    longer := run2;
    assert w2.workers == Run(env, w, run).workers[p := Scanned];
  }

  /** Two runners both find nothing running, on either side of a window's edge, and both start. */
  lemma TwoStart(env: Env, n: nat) returns (run: seq<Label>)
    requires n >= 2 && forall b :: env.logs(b) == []
    ensures var w := Fresh(0, 12 * HOUR_MS - 1, n); Legal(env, w, run) && !OneRunning(Run(env, w, run).flows)
  {
    var w := Fresh(0, 12 * HOUR_MS - 1, n);
    var idle := Threshold(env);
    run := QuietTick(env, w, [], 0);
    run := BehindTick(env, w, run, 1);
    var v := Run(env, w, run);
    assert v.flows == [] && v.workers[0] == Scanned && v.workers[1] == Scanned && v.clock == 12 * HOUR_MS - 1;
    run := CheckBoth(env, w, run, idle);
  }

  lemma CheckBoth(env: Env, w: World, before: seq<Label>, idle: nat) returns (run: seq<Label>)
    requires Legal(env, w, before) && idle >= Threshold(env)
    requires var v := Run(env, w, before);
             v.flows == [] && |v.workers| >= 2 && v.workers[0].Scanned? && v.workers[1].Scanned? && v.clock == 12 * HOUR_MS - 1
    ensures Legal(env, w, run) && !OneRunning(Run(env, w, run).flows)
  {
    var run1, w1 := Extend(env, w, before, PeriodCheck(0, idle, 12));
    var run2, w2 := Extend(env, w, run1, Advance(1));
    var run3, w3 := Extend(env, w, run2, PeriodCheck(1, idle, 12));
    assert w3.workers[0].key == PeriodKey(12, 0) && w3.workers[1].key == PeriodKey(12, 1);
    var run4, w4 := Extend(env, w, run3, StartPeriod(0));
    var run5, w5 := Extend(env, w, run4, StartPeriod(1));
    assert w4.flows == [Flow(PeriodKey(12, 0), idle, true)];
    assert w5.flows == w4.flows + [Flow(PeriodKey(12, 1), idle, true)];
    assert w5.flows[0].running && w5.flows[1].running;
    run := run5;
  }

  /** A vault that emits nothing. */
  const QUIET := Env(_ => [], 0)

  /** One flow at a time is the work of the single runner, not of the database: with two runners it fails. */
  lemma OneRunningExactlyWithOneRunner(n: nat)
    ensures AlwaysOneRunning(n) <==> n <= 1
  {
    if n <= 1 {
      forall env: Env, head: nat, clock: nat, run: seq<Label> | Legal(env, Fresh(head, clock, n), run)
        ensures OneRunning(Run(env, Fresh(head, clock, n), run).flows)
      {
        SingleKept(env, Fresh(head, clock, n), run);
      }
    } else {
      var run := TwoStart(QUIET, n);
    }
  }

  // ---- Unbonding ----

  ghost predicate Spaced(marks: seq<nat>) { Apart(marks, 3_600_000) }

  ghost predicate Apart(times: seq<nat>, gap: nat) { forall i, j :: 0 <= i < j < |times| ==> times[j] - times[i] >= gap }

  ghost predicate UnbondInv(w: World) {
    && |w.workers| == 1 && Spaced(w.unbonds)
    && (w.unbonds != [] ==> w.lastUnbond.Some?)
    && (w.lastUnbond.Some? ==> w.lastUnbond.value <= w.clock && forall i :: 0 <= i < |w.unbonds| ==> w.unbonds[i] <= w.lastUnbond.value)
    && (w.workers[0].Unbonding? ==>
          w.lastUnbond == Some(w.workers[0].at) && forall i :: 0 <= i < |w.unbonds| ==> w.workers[0].at - w.unbonds[i] >= UNBOND_COOLDOWN_MS)
  }

  /** Unbonds go out one after the other, each after its mark. */
  ghost predicate SendInv(w: World) {
    && |w.sends| == |w.unbonds| && Apart(w.sends, 0)
    && forall i :: 0 <= i < |w.sends| ==> w.unbonds[i] <= w.sends[i] <= w.clock
  }

  /** At most one unbond is sent per mark and the marks are an hour apart, across crashes: the mark is written before the send. */
  lemma {:induction false} UnbondsSpaced(env: Env, w: World, run: seq<Label>)
    requires UnbondInv(w) && SendInv(w) && Legal(env, w, run)
    ensures UnbondInv(Run(env, w, run)) && Spaced(Run(env, w, run).unbonds) && SendInv(Run(env, w, run))
    decreases |run|
  {
    if run != [] {
      UnbondStep(env, w, run[0]);
      UnbondsSpaced(env, Apply(env, w, run[0]), run[1..]);
    }
  }

  lemma UnbondStep(env: Env, w: World, l: Label)
    requires UnbondInv(w) && SendInv(w) && Enabled(env, w, l)
    ensures UnbondInv(Apply(env, w, l)) && SendInv(Apply(env, w, l))
  {
    if l.Unbond? {
      SendStep(env, w, l);
    } else if !l.Mark? {
      UnbondsUntouched(env, w, l);
    }
  }

  /** A send joins the earlier ones. */
  lemma SendStep(env: Env, w: World, l: Label)
    requires UnbondInv(w) && SendInv(w) && Enabled(env, w, l) && l.Unbond?
    ensures UnbondInv(Apply(env, w, l)) && SendInv(Apply(env, w, l))
  {
  }

  lemma UnbondsUntouched(env: Env, w: World, l: Label)
    requires |w.workers| == 1 && Enabled(env, w, l) && !l.Unbond? && !l.Mark?
    ensures var v := Apply(env, w, l);
            && v.unbonds == w.unbonds && v.sends == w.sends && v.lastUnbond == w.lastUnbond && w.clock <= v.clock
            && |v.workers| == 1 && (v.workers[0].Unbonding? ==> v.workers[0] == w.workers[0])
  {
  }

  /** Every unbond so far went out within `delay` of its mark. */
  ghost predicate Prompt(w: World, delay: nat) {
    |w.sends| == |w.unbonds| && forall i :: 0 <= i < |w.sends| ==> w.sends[i] <= w.unbonds[i] + delay
  }

  /** Whatever the vault emits, one runner whose sends follow their marks within `delay` sends no two unbonds within `gap`. */
  ghost predicate AlwaysApart(delay: nat, gap: nat) {
    forall env: Env, head: nat, clock: nat, run: seq<Label> :: Legal(env, Fresh(head, clock, 1), run) ==>
      var v := Run(env, Fresh(head, clock, 1), run);
      Prompt(v, delay) ==> Apart(v.sends, gap)
  }

  lemma SendsApart(w: World, delay: nat, gap: nat)
    requires UnbondInv(w) && Prompt(w, delay) && SendInv(w) && (gap == 0 || gap + delay <= UNBOND_COOLDOWN_MS)
    ensures Apart(w.sends, gap)
  {
    forall i, j | 0 <= i < j < |w.sends| ensures w.sends[j] - w.sends[i] >= gap {
      assert w.unbonds[j] - w.unbonds[i] >= UNBOND_COOLDOWN_MS;
    }
  }

  /** A runner past its scan marks and, after a pause, sends. */
  lemma UnbondAfter(env: Env, w: World, run: seq<Label>, pause: nat) returns (longer: seq<Label>)
    requires Legal(env, w, run)
    requires var u := Run(env, w, run);
             |u.workers| == 1 && u.workers[0].Scanned? && (u.lastUnbond.Some? ==> u.clock - u.lastUnbond.value >= UNBOND_COOLDOWN_MS)
    ensures Legal(env, w, longer)
    ensures var u, v := Run(env, w, run), Run(env, w, longer);
            && v.unbonds == u.unbonds + [u.clock] && v.sends == u.sends + [u.clock + pause] && v.lastUnbond == Some(u.clock)
            && v.clock == u.clock + pause && v.cursor == u.cursor && v.head == u.head && |v.workers| == 1 && v.workers[0].Idle?
  {
    var run1, w1 := Extend(env, w, run, Watch(0));
    var run2, w2 := Extend(env, w, run1, Mark(0));
    var run3, w3 := Extend(env, w, run2, Advance(pause));
    var run4, w4 := Extend(env, w, run3, Unbond(0));
    longer := run4;
  }

  /** One send as late as allowed, the next at once. */
  lemma LateThenPrompt(delay: nat) returns (run: seq<Label>)
    ensures var w := Fresh(0, 0, 1);
            && Legal(QUIET, w, run)
            && var v := Run(QUIET, w, run);
              && Prompt(v, delay) && |v.sends| == 2 && v.sends[0] == delay
              && v.sends[1] == MaxOf(delay, UNBOND_COOLDOWN_MS)
  {
    var w := Fresh(0, 0, 1);
    run := QuietTick(QUIET, w, [], 0);
    run := UnbondAfter(QUIET, w, run, delay);
    var v;
    run, v := Extend(QUIET, w, run, Advance(MaxOf(delay, UNBOND_COOLDOWN_MS) - delay));
    run := BehindTick(QUIET, w, run, 0);
    run := UnbondAfter(QUIET, w, run, 0);
  }

  /** The sends keep the hour that the marks keep exactly as far as each follows its mark at once: `delay` late costs `delay`. */
  lemma SendsApartExactly(delay: nat, gap: nat)
    ensures AlwaysApart(delay, gap) <==> gap == 0 || gap + delay <= 3_600_000
  {
    if gap == 0 || gap + delay <= UNBOND_COOLDOWN_MS {
      forall env: Env, head: nat, clock: nat, run: seq<Label> | Legal(env, Fresh(head, clock, 1), run)
        ensures var v := Run(env, Fresh(head, clock, 1), run); Prompt(v, delay) ==> Apart(v.sends, gap)
      {
        UnbondsSpaced(env, Fresh(head, clock, 1), run);
        var v := Run(env, Fresh(head, clock, 1), run);
        if Prompt(v, delay) { SendsApart(v, delay, gap); }
      }
    } else {
      var run := LateThenPrompt(delay);
      var v := Run(QUIET, Fresh(0, 0, 1), run);
      assert v.sends[1] - v.sends[0] < gap;
      assert !Apart(v.sends, gap);
    }
  }
}

// The automation runner as a protocol: ticks scan the vault's logs from a durable cursor, record each log,
// and start pipeline runs under unique keys. Any number of runners may share the database; each does one
// thing at a time and may stop anywhere.
module VaultScan {
  import opened BlockRanges
  import opened Options

  const MAX_CHUNKS_PER_TICK := 20
  const SPAN := CHUNK * MAX_CHUNKS_PER_TICK
  const UNBOND_COOLDOWN_MS := 60 * 60_000
  const MIN_DEPLOY_USDC := 1_000_000
  const HOUR_MS := 3_600_000

  /** A log is named by its transaction and its place there. */
  datatype Log = Log(id: nat, deposit: bool)

  /** What the vault emitted, block by block, and the configured threshold in USDC units. */
  datatype Env = Env(logs: nat -> seq<Log>, minIdle: nat)

  /** No two places hold the same log. */
  ghost predicate Distinct(env: Env) {
    forall b, c, i, j :: 0 <= i < |env.logs(b)| && 0 <= j < |env.logs(c)| && env.logs(b)[i].id == env.logs(c)[j].id ==> b == c && i == j
  }

  datatype Key = DepositKey(log: nat) | PeriodKey(hours: nat, window: nat)

  function WindowKey(hours: nat, now: nat): Key
    requires hours > 0
  {
    PeriodKey(hours, now / (hours * HOUR_MS))
  }

  function Threshold(env: Env): nat { if env.minIdle > MIN_DEPLOY_USDC then env.minIdle else MIN_DEPLOY_USDC }

  datatype Flow = Flow(key: Key, usdcIn: nat, running: bool)

  /** `base` is the first block this scan's claim reaches back to; `rest` the chunk's logs not handled yet. */
  datatype Worker =
    | Idle
    | Awake
    | Scanning(base: nat, from: nat, ceiling: nat)
    | Chunk(base: nat, from: nat, ceiling: nat, to: nat, rest: seq<Log>)
    | Considering(base: nat, from: nat, ceiling: nat, to: nat, rest: seq<Log>, log: nat)
    | Starting(base: nat, from: nat, ceiling: nat, to: nat, rest: seq<Log>, log: nat, usdcIn: nat)
    | Scanned
    | StartingPeriod(key: Key, usdcIn: nat)
    | Watching
    | Unbonding(at: nat)

  /** `activity` lists the keys of the log documents; `unbonds` the marks under which an unbond was sent, `sends` when it was. */
  datatype World = World(
    head: nat, clock: nat, activity: seq<nat>, cursor: Option<nat>, origin: Option<nat>,
    lastUnbond: Option<nat>, unbonds: seq<nat>, sends: seq<nat>, flows: seq<Flow>, workers: seq<Worker>)

  /** `Stop` ends a tick: it returns early, throws, or the process dies. */
  datatype Label =
    | Head(n: nat) | Advance(ms: nat) | Finish(flow: nat) | Stop(p: nat)
    | StartTick(p: nat) | Scan(p: nat) | Fetch(p: nat) | Note(p: nat, ok: bool)
    | Pass(p: nat) | Check(p: nat, idle: nat) | Start(p: nat) | SaveCursor(p: nat) | EndScan(p: nat)
    | PeriodCheck(p: nat, idle: nat, hours: nat) | StartPeriod(p: nat) | Watch(p: nat) | Mark(p: nat) | Unbond(p: nat)

  predicate NoneRunning(flows: seq<Flow>) { forall k :: 0 <= k < |flows| ==> !flows[k].running }

  predicate KeyTaken(flows: seq<Flow>, key: Key) { exists k :: 0 <= k < |flows| && flows[k].key == key }

  /** The unique index: a second document with the key is refused. */
  function Insert(flows: seq<Flow>, f: Flow): seq<Flow> { if KeyTaken(flows, f.key) then flows else flows + [f] }

  function NoteIn(activity: seq<nat>, id: nat, ok: bool): seq<nat> { if !ok || id in activity then activity else activity + [id] }

  function Min(a: nat, b: nat): nat { if a < b then a else b }

  function MaxOf(a: nat, b: nat): nat { if a < b then b else a }

  predicate Has(w: World, p: nat) { p < |w.workers| }

  predicate Enabled(env: Env, w: World, l: Label) {
    match l
    case Head(_) => true
    case Advance(_) => true
    case Finish(k) => k < |w.flows|
    case Stop(p) => Has(w, p)
    case StartTick(p) => Has(w, p) && w.workers[p].Idle?
    case Scan(p) => Has(w, p) && w.workers[p].Awake?
    case Fetch(p) => Has(w, p) && w.workers[p].Scanning? && w.workers[p].from <= w.workers[p].ceiling
    case Note(p, _) => Has(w, p) && w.workers[p].Chunk? && w.workers[p].rest != []
    case Pass(p) => Has(w, p) && w.workers[p].Considering?
    case Check(p, idle) => Has(w, p) && w.workers[p].Considering? && idle >= Threshold(env) && NoneRunning(w.flows)
    case Start(p) => Has(w, p) && w.workers[p].Starting?
    case SaveCursor(p) => Has(w, p) && w.workers[p].Chunk? && w.workers[p].rest == []
    case EndScan(p) => Has(w, p) && w.workers[p].Scanning? && w.workers[p].from > w.workers[p].ceiling
    case PeriodCheck(p, idle, hours) => Has(w, p) && w.workers[p].Scanned? && idle >= Threshold(env) && NoneRunning(w.flows) && (hours == 12 || hours == 24)
    case StartPeriod(p) => Has(w, p) && w.workers[p].StartingPeriod?
    case Watch(p) => Has(w, p) && w.workers[p].Scanned?
    case Mark(p) => Has(w, p) && w.workers[p].Watching? && (w.lastUnbond.Some? ==> w.clock - w.lastUnbond.value >= UNBOND_COOLDOWN_MS)
    case Unbond(p) => Has(w, p) && w.workers[p].Unbonding?
  }

  function Set(w: World, p: nat, k: Worker): World
    requires Has(w, p)
  {
    w.(workers := w.workers[p := k])
  }

  /** A fresh install starts at the head; a head behind the cursor pulls the cursor back and ends the scan. */
  function Scanned0(w: World, p: nat): World
    requires Has(w, p)
  {
    var from := if w.cursor.Some? then w.cursor.value + 1 else w.head;
    if from > w.head then Set(w.(cursor := Some(w.head)), p, Scanned)
    else
      var base := if w.cursor.Some? && w.origin.Some? then w.origin.value else from;
      Set(w, p, Scanning(base, from, Min(w.head, from + SPAN)))
  }

  function Apply(env: Env, w: World, l: Label): World
    requires Enabled(env, w, l)
  {
    match l
    case Head(n) => w.(head := n)
    case Advance(ms) => w.(clock := w.clock + ms)
    case Finish(k) => w.(flows := w.flows[k := w.flows[k].(running := false)])
    case Stop(p) => Set(w, p, Idle)
    case StartTick(p) => Set(w, p, Awake)
    case Scan(p) => Scanned0(w, p)
    case Fetch(p) =>
      var k := w.workers[p];
      var to := Min(k.ceiling, k.from + CHUNK - 1);
      Set(w, p, Chunk(k.base, k.from, k.ceiling, to, LogsIn(env.logs, k.from, to)))
    case Note(p, ok) =>
      var k := w.workers[p];
      var log := k.rest[0];
      Set(w.(activity := NoteIn(w.activity, log.id, ok)), p,
          if log.deposit then Considering(k.base, k.from, k.ceiling, k.to, k.rest[1..], log.id)
          else Chunk(k.base, k.from, k.ceiling, k.to, k.rest[1..]))
    case Pass(p) =>
      var k := w.workers[p];
      Set(w, p, Chunk(k.base, k.from, k.ceiling, k.to, k.rest))
    case Check(p, idle) =>
      var k := w.workers[p];
      Set(w, p, Starting(k.base, k.from, k.ceiling, k.to, k.rest, k.log, idle))
    case Start(p) =>
      var k := w.workers[p];
      Set(w.(flows := Insert(w.flows, Flow(DepositKey(k.log), k.usdcIn, true))), p, Chunk(k.base, k.from, k.ceiling, k.to, k.rest))
    case SaveCursor(p) =>
      var k := w.workers[p];
      Set(w.(cursor := Some(k.to), origin := Some(if w.origin.Some? then MaxOf(w.origin.value, k.base) else k.base)), p,
          Scanning(k.base, k.to + 1, k.ceiling))
    case EndScan(p) => Set(w, p, Scanned)
    case PeriodCheck(p, idle, hours) => Set(w, p, StartingPeriod(WindowKey(hours, w.clock), idle))
    case StartPeriod(p) =>
      var k := w.workers[p];
      Set(w.(flows := Insert(w.flows, Flow(k.key, k.usdcIn, true))), p, Scanned)
    case Watch(p) => Set(w, p, Watching)
    case Mark(p) => Set(w.(lastUnbond := Some(w.clock)), p, Unbonding(w.clock))
    case Unbond(p) => Set(w.(unbonds := w.unbonds + [w.workers[p].at], sends := w.sends + [w.clock]), p, Idle)
  }

  ghost predicate Legal(env: Env, w: World, run: seq<Label>)
    decreases |run|
  {
    run != [] ==> Enabled(env, w, run[0]) && Legal(env, Apply(env, w, run[0]), run[1..])
  }

  ghost function Run(env: Env, w: World, run: seq<Label>): World
    requires Legal(env, w, run)
    decreases |run|
  {
    if run == [] then w else Run(env, Apply(env, w, run[0]), run[1..])
  }

  function Idlers(n: nat): (s: seq<Worker>)
    ensures |s| == n && forall k :: 0 <= k < n ==> s[k].Idle?
  {
    seq(n, _ => Idle)
  }

  /** An empty database and n runners. */
  function Fresh(head: nat, clock: nat, n: nat): World { World(head, clock, [], None, None, None, [], [], [], Idlers(n)) }

  // ---- Scanning ----

  /** Every log of the blocks from..to (to excluded) has a document. */
  ghost predicate Recorded(env: Env, activity: seq<nat>, from: nat, to: nat) {
    forall b, i :: from <= b < to && 0 <= i < |env.logs(b)| ==> env.logs(b)[i].id in activity
  }

  /** The chunk's logs that are no longer in `rest` have documents. */
  ghost predicate Handled(env: Env, activity: seq<nat>, from: nat, to: nat, rest: seq<Log>) {
    forall k :: 0 <= k < |LogsIn(env.logs, from, to)| && LogsIn(env.logs, from, to)[k] !in rest ==> LogsIn(env.logs, from, to)[k].id in activity
  }

  ghost predicate WorkerOk(env: Env, w: World, k: Worker) {
    && (k.Scanning? || k.Chunk? || k.Considering? || k.Starting? ==> Recorded(env, w.activity, k.base, k.from))
    && (k.Chunk? || k.Considering? || k.Starting? ==> k.from <= k.to && Handled(env, w.activity, k.from, k.to, k.rest))
  }

  ghost predicate ScanInv(env: Env, w: World) {
    && (w.cursor.Some? ==> w.origin.Some? && Recorded(env, w.activity, w.origin.value, w.cursor.value + 1))
    && (forall p :: 0 <= p < |w.workers| ==> WorkerOk(env, w, w.workers[p]))
  }

  /** A chunk with nothing left to handle is recorded. */
  lemma ChunkRecorded(env: Env, activity: seq<nat>, base: nat, from: nat, to: nat)
    requires from <= to && Recorded(env, activity, base, from) && Handled(env, activity, from, to, [])
    ensures Recorded(env, activity, base, to + 1)
  {
    forall b, i | base <= b < to + 1 && 0 <= i < |env.logs(b)| ensures env.logs(b)[i].id in activity {
      if b >= from {
        LogsInHas(env.logs, from, to, b, i);
      }
    }
  }

  lemma WorkerGrows(env: Env, w: World, v: World, k: Worker)
    requires WorkerOk(env, w, k) && forall id :: id in w.activity ==> id in v.activity
    ensures WorkerOk(env, v, k)
  {
  }

  /** No activity write is lost. */
  ghost predicate Kept(l: Label) { l.Note? ==> l.ok }

  lemma NoteKeeps(env: Env, w: World, p: nat)
    requires ScanInv(env, w) && Enabled(env, w, Note(p, true))
    ensures ScanInv(env, Apply(env, w, Note(p, true)))
  {
    var v := Apply(env, w, Note(p, true));
    var k := w.workers[p];
    assert WorkerOk(env, w, k);
    assert forall x :: x in k.rest ==> x == k.rest[0] || x in k.rest[1..];
    forall q | 0 <= q < |v.workers| ensures WorkerOk(env, v, v.workers[q]) {
      if q != p {
        assert WorkerOk(env, w, w.workers[q]);
        WorkerGrows(env, w, v, w.workers[q]);
      } else {
        WorkerGrows(env, w, v, k);
      }
    }
  }

  lemma SaveKeeps(env: Env, w: World, p: nat)
    requires ScanInv(env, w) && Enabled(env, w, SaveCursor(p))
    ensures ScanInv(env, Apply(env, w, SaveCursor(p)))
  {
    var v := Apply(env, w, SaveCursor(p));
    var k := w.workers[p];
    assert WorkerOk(env, w, k);
    ChunkRecorded(env, w.activity, k.base, k.from, k.to);
    forall q | 0 <= q < |v.workers| ensures WorkerOk(env, v, v.workers[q]) {
      if q != p { assert WorkerOk(env, w, w.workers[q]); }
    }
  }

  lemma OtherKeeps(env: Env, w: World, l: Label)
    requires ScanInv(env, w) && Enabled(env, w, l) && !l.Note? && !l.SaveCursor?
    ensures ScanInv(env, Apply(env, w, l))
  {
    var v := Apply(env, w, l);
    forall q | 0 <= q < |v.workers| ensures WorkerOk(env, v, v.workers[q]) {
      assert WorkerOk(env, w, w.workers[q]);
    }
  }

  lemma {:induction false} ScanKept(env: Env, w: World, run: seq<Label>)
    requires ScanInv(env, w) && Legal(env, w, run) && forall l :: l in run ==> Kept(l)
    ensures ScanInv(env, Run(env, w, run))
    decreases |run|
  {
    if run != [] {
      if run[0].Note? { assert Kept(run[0]); NoteKeeps(env, w, run[0].p); }
      else if run[0].SaveCursor? { SaveKeeps(env, w, run[0].p); }
      else { OtherKeeps(env, w, run[0]); }
      ScanKept(env, Apply(env, w, run[0]), run[1..]);
    }
  }
}

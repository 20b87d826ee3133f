/** The runner as the backend runs it: a durable cursor, one tick at a time, proved to take only the steps of VaultScan. */
module Automation {
  import opened BlockRanges
  import opened Options
  import opened VaultScan
  import opened VaultScanTheorems
  import opened VaultWindows

  /**
   What the surroundings do at one await: the head and the clock move, the process may die, a write may be
   lost, a send may throw, reads come back, and the pipeline's own step finishes some flows.
   */
  datatype Turn = Turn(head: nat, pause: nat, crash: bool, noted: bool, throws: bool, idle: nat, finished: seq<nat>)

  /**
   The settings that decide what starts a run; `hours` is None when deposits do. `ready`: something is staked, and
   a wallet and a validator to unbond it with are configured.
   */
  datatype Config = Config(enabled: bool, hours: Option<nat>, bufferLow: bool, ready: bool)

  /** What a scan that is not interrupted leaves in the cursor: the head, or SPAN blocks past the first when the head is further. */
  ghost predicate CaughtUp(before: Option<nat>, head: nat, after: Option<nat>) {
    var from := if before.Some? then before.value + 1 else head;
    after == Some(if from > head then head else Min(head, from + SPAN))
  }

  /** A run starts exactly when it is wanted, enough is idle, nothing is running and its key is new. */
  ghost function MayStart(env: Env, flows: seq<Flow>, wanted: bool, key: Key, idle: nat): seq<Flow> {
    if wanted && Enough(env, idle) && NoneRunning(flows) then Insert(flows, Flow(key, idle, true)) else flows
  }

  predicate Periodic(config: Config) { config.hours == Some(12) || config.hours == Some(24) }

  class AutomationRunner {
    const env: Env
    // The chain head, the clock and what the surroundings will do next.
    var head: nat
    var clock: nat
    var turns: seq<Turn>
    // Durable collections; unbonds are the transactions sent, by their marks, and sends when each went out.
    var activity: seq<nat>
    var cursor: Option<nat>
    var lastUnbond: Option<nat>
    var unbonds: seq<nat>
    var sends: seq<nat>
    var flows: seq<Flow>
    // In memory.
    var running: bool
    // Every step since the object was created.
    ghost const start: World
    ghost var steps: seq<Label>
    ghost var world: World

    ghost predicate Traced()
      reads this
    {
      && start == Fresh(start.head, start.clock, 1)
      && Legal(env, start, steps) && world == Run(env, start, steps) && |world.workers| == 1
    }

    ghost predicate Valid()
      reads this
    {
      && Traced()
      && world.head == head && world.clock == clock && world.activity == activity && world.cursor == cursor
      && world.lastUnbond == lastUnbond && world.unbonds == unbonds && world.sends == sends && world.flows == flows
    }

    /** The surroundings end the tick here. */
    predicate Ended()
      reads this
    {
      turns == [] || turns[0].crash
    }

    ghost function Worker(): VaultScan.Worker
      reads this
      requires |world.workers| == 1
    {
      world.workers[0]
    }

    constructor (env: Env, head: nat, clock: nat)
      ensures Valid() && Worker().Idle? && !running
    {
      this.env, this.head, this.clock := env, head, clock;
      turns, activity, cursor, lastUnbond, unbonds, sends, flows, running := [], [], None, None, [], [], [], false;
      start := Fresh(head, clock, 1);
      steps := [];
      world := Fresh(head, clock, 1);
    }

    ghost method Record(l: Label)
      requires Traced() && Enabled(env, world, l)
      modifies this`steps, this`world
      ensures Traced() && steps == old(steps) + [l] && world == Apply(env, old(world), l)
    {
      var longer, v := Extend(env, start, steps, l);
      steps, world := longer, v;
    }

    /** An await: the next turn, or None when the tick ends in it. */
    method Wait() returns (turn: Option<Turn>)
      requires Valid()
      modifies this`head, this`clock, this`turns, this`steps, this`world
      ensures Valid() && old(steps) <= steps
      ensures turn.None? <==> old(Ended())
      ensures turn.Some? ==> turn.value == old(turns)[0] && turns == old(turns)[1..] && Worker() == old(Worker())
      ensures turn.Some? ==> head == turn.value.head && clock == old(clock) + turn.value.pause
      ensures turn.None? ==> turns == old(turns) && head == old(head) && clock == old(clock) && Worker().Idle?
    {
      if turns == [] || turns[0].crash {
        Record(Stop(0));
        return None;
      }
      turn := Some(turns[0]);
      turns := turns[1..];
      Record(Head(turn.value.head));
      head := turn.value.head;
      Record(Advance(turn.value.pause));
      clock := clock + turn.value.pause;
    }

    /** One flow per key, enforced by the database. */
    method StartFlow(key: Key, usdcIn: nat, ghost l: Label)
      requires Traced() && world.flows == flows && Enabled(env, world, l)
      requires Apply(env, world, l).flows == Insert(flows, Flow(key, usdcIn, true))
      modifies this`flows, this`steps, this`world
      ensures Traced() && world == Apply(env, old(world), l) && steps == old(steps) + [l] && flows == world.flows
    {
      Record(l);
      if !KeyTaken(flows, key) {
        flows := flows + [Flow(key, usdcIn, true)];
      }
    }

    /** A deposit starts a run when the automation is on, enough is idle and nothing is running. */
    method Consider(log: nat, config: Config) returns (alive: bool)
      requires Valid() && Worker().Considering? && Worker().log == log
      modifies this
      ensures Valid() && old(steps) <= steps && running == old(running)
      ensures var k := old(Worker()); alive ==> Worker() == Chunk(k.base, k.from, k.ceiling, k.to, k.rest)
      ensures alive <==> !old(Ended())
      ensures alive ==> flows == MayStart(env, old(flows), config.enabled && config.hours.None?, DepositKey(log), old(turns)[0].idle)
      ensures alive ==> turns == old(turns)[1..]
      ensures !alive ==> Worker().Idle? && Ended() && flows == old(flows)
    {
      var turn := Wait();
      if turn.None? { return false; }
      alive := true;
      if !config.enabled || config.hours.Some? || turn.value.idle < Threshold(env) || !NoneRunning(flows) {
        Record(Pass(0));
        return;
      }
      StartOnDeposit(log, turn.value.idle);
    }

    method StartOnDeposit(log: nat, idle: nat)
      requires Valid() && Worker().Considering? && Worker().log == log && idle >= Threshold(env) && NoneRunning(flows)
      modifies this`flows, this`steps, this`world
      ensures Valid() && old(steps) <= steps
      ensures var k := old(Worker()); Worker() == Chunk(k.base, k.from, k.ceiling, k.to, k.rest)
      ensures flows == Insert(old(flows), Flow(DepositKey(log), idle, true))
    {
      Record(Check(0, idle));
      StartFlow(DepositKey(log), idle, Start(0));
    }

    /** One upsert by the log's key; the recorder swallows a failure. */
    method NoteLog(log: Log, noted: bool)
      requires Valid() && Worker().Chunk? && Worker().rest != [] && Worker().rest[0] == log
      modifies this`activity, this`steps, this`world
      ensures Valid() && old(steps) <= steps
      ensures var k := old(Worker());
              Worker() == if log.deposit then Considering(k.base, k.from, k.ceiling, k.to, k.rest[1..], log.id) else Chunk(k.base, k.from, k.ceiling, k.to, k.rest[1..])
    {
      Record(Note(0, noted));
      if noted && log.id !in activity {
        activity := activity + [log.id];
      }
    }

    /** Records a log and considers it if it is a deposit. */
    method HandleLog(log: Log, config: Config) returns (alive: bool)
      requires Valid() && Worker().Chunk? && Worker().rest != [] && Worker().rest[0] == log
      modifies this
      ensures Valid() && old(steps) <= steps && running == old(running)
      ensures var k := old(Worker()); alive ==> Worker() == Chunk(k.base, k.from, k.ceiling, k.to, k.rest[1..])
      ensures !alive ==> Worker().Idle? && Ended()
    {
      var turn := Wait();
      if turn.None? { return false; }
      NoteLog(log, turn.value.noted);
      alive := true;
      if log.deposit { alive := Consider(log.id, config); }
    }

    /** Records each log of a chunk and considers each deposit. */
    method HandleLogs(logs: seq<Log>, config: Config) returns (alive: bool)
      requires Valid() && Worker().Chunk? && Worker().rest == logs
      modifies this
      ensures Valid() && old(steps) <= steps && running == old(running)
      ensures var k := old(Worker()); alive ==> Worker() == Chunk(k.base, k.from, k.ceiling, k.to, [])
      ensures !alive ==> Worker().Idle? && Ended()
    {
      ghost var k := Worker();
      var i := 0;
      while i < |logs|
        invariant i <= |logs| && Valid() && old(steps) <= steps && running == old(running)
        invariant Worker() == Chunk(k.base, k.from, k.ceiling, k.to, logs[i..])
      {
        alive := HandleLog(logs[i], config);
        if !alive { return; }
        i := i + 1;
      }
      alive := true;
    }

    /**
     Scans from the cursor in chunks. A scan that is not interrupted covers exactly the blocks up to the
     head, or SPAN blocks past the first when the head is further; exactly in that case it takes one chunk
     more than MAX_CHUNKS_PER_TICK.
     */
    method ScanVaultEvents(config: Config) returns (alive: bool, ghost chunks: seq<(nat, nat)>)
      requires Valid() && Worker().Awake?
      modifies this
      ensures Valid() && old(steps) <= steps && running == old(running)
      ensures if alive then Worker().Scanned? else Worker().Idle? && Ended()
      ensures alive ==> CaughtUp(old(cursor), old(head), cursor)
      ensures var from := if old(cursor).Some? then old(cursor).value + 1 else old(head);
              alive && from <= old(head) ==>
                && Tiles(chunks, from, cursor.value) && |chunks| == (cursor.value - from) / CHUNK + 1 <= MAX_CHUNKS_PER_TICK + 1
                && (|chunks| > MAX_CHUNKS_PER_TICK <==> old(head) >= from + SPAN)
    {
      var from := if cursor.Some? then cursor.value + 1 else head;
      chunks := [];
      if from > head {
        Record(Scan(0));
        cursor := Some(head);
        return true, chunks;
      }
      var ceiling := Min(head, from + SPAN);
      Record(Scan(0));
      alive, chunks := ScanChunks(from, ceiling, config);
    }

    method FetchLogs(from: nat, to: nat) returns (logs: Option<seq<Log>>)
      requires Valid() && Worker().Scanning? && Worker().from == from <= Worker().ceiling
      requires to == Min(Worker().ceiling, from + CHUNK - 1)
      modifies this`head, this`clock, this`turns, this`steps, this`world
      ensures Valid() && old(steps) <= steps
      ensures var k := old(Worker());
              if logs.Some? then Worker() == Chunk(k.base, from, k.ceiling, to, logs.value) else Worker().Idle? && Ended()
    {
      var turn := Wait();
      if turn.None? { return None; }
      Record(Fetch(0));
      logs := Some(LogsIn(env.logs, from, to));
    }

    method WriteCursor(to: nat) returns (alive: bool)
      requires Valid() && Worker().Chunk? && Worker().rest == [] && Worker().to == to
      modifies this`head, this`clock, this`turns, this`cursor, this`steps, this`world
      ensures Valid() && old(steps) <= steps
      ensures var k := old(Worker());
              if alive then Worker() == Scanning(k.base, to + 1, k.ceiling) && cursor == Some(to) else Worker().Idle? && Ended()
    {
      var turn := Wait();
      if turn.None? { return false; }
      Record(SaveCursor(0));
      cursor := Some(to);
      alive := true;
    }

    /** One chunk: its logs, then the cursor. */
    method ScanChunk(from: nat, to: nat, config: Config) returns (alive: bool)
      requires Valid() && Worker().Scanning? && Worker().from == from <= Worker().ceiling
      requires to == Min(Worker().ceiling, from + CHUNK - 1)
      modifies this
      ensures Valid() && old(steps) <= steps && running == old(running)
      ensures alive ==> Worker() == Scanning(old(Worker()).base, to + 1, old(Worker()).ceiling) && cursor == Some(to)
      ensures !alive ==> Worker().Idle? && Ended()
    {
      var logs := FetchLogs(from, to);
      if logs.None? { return false; }
      alive := HandleLogs(logs.value, config);
      if !alive { return; }
      alive := WriteCursor(to);
    }

    method ScanChunks(first: nat, ceiling: nat, config: Config) returns (alive: bool, ghost chunks: seq<(nat, nat)>)
      requires Valid() && Worker().Scanning? && Worker().from == first <= ceiling == Worker().ceiling
      modifies this
      ensures Valid() && old(steps) <= steps && running == old(running)
      ensures if alive then Worker().Scanned? else Worker().Idle? && Ended()
      ensures alive ==> cursor == Some(ceiling) && Tiles(chunks, first, ceiling) && |chunks| == (ceiling - first) / CHUNK + 1
    {
      var from := first;
      ghost var base := Worker().base;
      chunks := [];
      while from <= ceiling
        invariant first <= from <= ceiling + 1 && Valid() && old(steps) <= steps && running == old(running)
        invariant Worker() == Scanning(base, from, ceiling)
        invariant from > first ==> cursor == Some(from - 1)
        invariant if from == first then chunks == []
                  else chunks != [] && Tiles(chunks, first, from - 1) && |chunks| == (from - 1 - first) / CHUNK + 1
        invariant from <= ceiling ==> from == first + |chunks| * CHUNK
      {
        var to := Min(ceiling, from + CHUNK - 1);
        alive := ScanChunk(from, to, config);
        if !alive { return; }
        chunks := Extended(chunks, first, from, to);
        from := to + 1;
      }
      Record(EndScan(0));
      alive := true;
    }

    /** Starts the run of the current window, if it is due and has none. */
    method RunPeriodic(config: Config) returns (alive: bool)
      requires Valid() && Worker().Scanned?
      modifies this
      ensures Valid() && old(steps) <= steps && running == old(running) && cursor == old(cursor)
      ensures if alive then Worker().Scanned? else Worker().Idle? && Ended()
      ensures alive <==> !old(Ended())
      ensures alive ==> clock == old(clock) + old(turns)[0].pause && turns == old(turns)[1..]
      ensures alive ==>
        exists key :: Names(key, OnClock(if config.hours == Some(24) then 24 else 12, clock))
                   && flows == MayStart(env, old(flows), Periodic(config), key, old(turns)[0].idle)
      ensures !alive ==> flows == old(flows)
    {
      var turn := Wait();
      if turn.None? { return false; }
      alive := true;
      ghost var hours := if config.hours == Some(24) then 24 else 12;
      CheckedWindow(hours, clock);
      if Periodic(config) && turn.value.idle >= Threshold(env) && NoneRunning(flows) {
        StartOnWindow(config.hours.value, turn.value.idle);
      }
      assert Names(WindowKey(hours, clock), OnClock(hours, clock))
          && flows == MayStart(env, old(flows), Periodic(config), WindowKey(hours, clock), old(turns)[0].idle);
    }

    method StartOnWindow(hours: nat, idle: nat)
      requires Valid() && Worker().Scanned? && (hours == 12 || hours == 24) && idle >= Threshold(env) && NoneRunning(flows)
      modifies this`flows, this`steps, this`world
      ensures Valid() && old(steps) <= steps && Worker().Scanned?
      ensures flows == Insert(old(flows), Flow(WindowKey(hours, clock), idle, true))
    {
      Record(PeriodCheck(0, idle, hours));
      StartFlow(WindowKey(hours, clock), idle, StartPeriod(0));
    }

    /** The pipeline's turn: some flows come to an end, no flow is added or renamed. */
    method TickFlows(finished: seq<nat>)
      requires Valid()
      modifies this`flows, this`steps, this`world
      ensures Valid() && old(steps) <= steps && Worker() == old(Worker()) && |flows| == |old(flows)|
      ensures forall k :: 0 <= k < |flows| ==> flows[k] == old(flows)[k].(running := old(flows)[k].running && k !in finished)
    {
      for j := 0 to |finished|
        invariant Valid() && old(steps) <= steps && Worker() == old(Worker()) && |flows| == |old(flows)|
        invariant forall k :: 0 <= k < |flows| ==> flows[k] == old(flows)[k].(running := old(flows)[k].running && k !in finished[..j])
      {
        var k := finished[j];
        if k < |flows| {
          Record(Finish(k));
          flows := flows[k := flows[k].(running := false)];
        }
        assert finished[..j + 1] == finished[..j] + [k];
      }
      assert finished[..|finished|] == finished;
    }

    /** Unbonds when the short is close to liquidation, the last mark is old enough and there is a stake and the means to unbond it. */
    method WatchLiquidationBuffer(config: Config) returns (alive: bool)
      requires Valid() && Worker().Scanned?
      modifies this
      ensures Valid() && old(steps) <= steps && Worker().Idle?
      ensures running == old(running) && cursor == old(cursor) && flows == old(flows)
      ensures var due := config.bufferLow && config.ready && (old(lastUnbond).Some? ==> old(clock) - old(lastUnbond).value >= 3_600_000);
              var sent := due && !old(Ended()) && !old(turns)[0].throws;
              && lastUnbond == (if due then Some(old(clock)) else old(lastUnbond))
              && unbonds == (if sent then old(unbonds) + [old(clock)] else old(unbonds))
              && sends == (if sent then old(sends) + [clock] else old(sends))
              && (alive <==> !due || !old(Ended()))
      ensures !alive ==> Ended()
    {
      alive := true;
      Record(Watch(0));
      if !config.bufferLow || (lastUnbond.Some? && clock - lastUnbond.value < UNBOND_COOLDOWN_MS) || !config.ready {
        Record(Stop(0));
      } else {
        alive := MarkAndUnbond();
      }
    }

    /** The send, under a mark already written; one that throws is only logged, and the mark stands. */
    method SendUnbond(at: nat) returns (alive: bool)
      requires Valid() && Worker() == Unbonding(at)
      modifies this`head, this`clock, this`turns, this`unbonds, this`sends, this`steps, this`world
      ensures Valid() && old(steps) <= steps && Worker().Idle? && (alive || Ended())
      ensures alive <==> !old(Ended())
      ensures var sent := alive && !old(turns)[0].throws;
              unbonds == (if sent then old(unbonds) + [at] else old(unbonds)) && sends == (if sent then old(sends) + [clock] else old(sends))
      ensures alive ==> clock == old(clock) + old(turns)[0].pause
    {
      var turn := Wait();
      if turn.None? { return false; }
      alive := true;
      if turn.value.throws {
        Record(Stop(0));
        return;
      }
      Record(Unbond(0));
      unbonds := unbonds + [at];
      sends := sends + [clock];
    }

    /** The mark is written before the send. */
    method MarkAndUnbond() returns (alive: bool)
      requires Valid() && Worker().Watching? && Enabled(env, world, Mark(0))
      modifies this`head, this`clock, this`turns, this`lastUnbond, this`unbonds, this`sends, this`steps, this`world
      ensures Valid() && old(steps) <= steps && Worker().Idle? && lastUnbond == Some(old(clock))
      ensures alive <==> !old(Ended())
      ensures var sent := alive && !old(turns)[0].throws;
              && unbonds == (if sent then old(unbonds) + [old(clock)] else old(unbonds))
              && sends == (if sent then old(sends) + [clock] else old(sends))
      ensures alive ==> clock == old(clock) + old(turns)[0].pause
      ensures !alive ==> Ended()
    {
      var at := clock;
      Record(Mark(0));
      lastUnbond := Some(at);
      alive := SendUnbond(at);
    }

    /**
     One tick under any schedule of the surroundings. Whatever the schedule, the tick takes only steps of
     VaultScan with a single runner, so what is proved of its runs holds here; a tick that gets through
     has caught up with the head, and it stops short only where the surroundings end it.
     */
    method Tick(schedule: seq<Turn>, config: Config) returns (through: bool)
      requires Valid() && (running <==> !Worker().Idle?)
      modifies this
      ensures Valid() && old(steps) <= steps && (running <==> !Worker().Idle?) && (old(running) ==> steps == old(steps))
      ensures NothingLost(steps) ==> ScannedOnce(env, world)
      ensures KeysOnce(flows) && OneRunning(flows) && Spaced(unbonds)
      ensures old(world).origin.Some? ==> world.origin == old(world).origin
      ensures through ==> CaughtUp(old(cursor), old(head), cursor)
      ensures !through ==> old(running) || Ended()
    {
      through := false;
      if !running {
        turns := schedule;
        running := true;
        through := RunTick(config);
        running := false;
      }
      Keeps(old(steps));
    }

    method RunTick(config: Config) returns (through: bool)
      requires Valid() && Worker().Idle?
      modifies this
      ensures Valid() && old(steps) <= steps && Worker().Idle? && running == old(running)
      ensures through ==> CaughtUp(old(cursor), old(head), cursor)
      ensures !through ==> Ended()
    {
      Record(StartTick(0));
      ghost var chunks;
      through, chunks := ScanVaultEvents(config);
      if through { through := AfterScan(config); }
    }

    /** What a tick does once its scan got through. */
    method AfterScan(config: Config) returns (through: bool)
      requires Valid() && Worker().Scanned?
      modifies this
      ensures Valid() && old(steps) <= steps && Worker().Idle? && running == old(running) && cursor == old(cursor)
      ensures !through ==> Ended()
    {
      through := true;
      if !config.enabled {
        Record(Stop(0));
        return;
      }
      through := RunPeriodic(config);
      if !through { return; }
      var turn := Wait();
      if turn.None? { return false; }
      TickFlows(turn.value.finished);
      through := WatchLiquidationBuffer(config);
    }

    lemma Keeps(before: seq<Label>)
      requires Valid() && before <= steps
      ensures NothingLost(steps) ==> ScannedOnce(env, world)
      ensures KeysOnce(flows) && OneRunning(flows) && Spaced(unbonds)
      ensures Legal(env, start, before) && (Run(env, start, before).origin.Some? ==> world.origin == Run(env, start, before).origin)
    {
      if NothingLost(steps) { ScanComplete(env, start.head, start.clock, 1, steps); }
      TriggersOnce(env, start, steps);
      SingleKept(env, start, steps);
      UnbondsSpaced(env, start, steps);
      assert steps == before + steps[|before|..];
      RunSplit(env, start, before, steps[|before|..]);
      OriginNeverMoves(env, start, before);
      OriginNeverMoves(env, Run(env, start, before), steps[|before|..]);
    }
  }

  lemma {:induction false} RunSplit(env: Env, w: World, first: seq<Label>, second: seq<Label>)
    requires Legal(env, w, first + second)
    ensures Legal(env, w, first) && Legal(env, Run(env, w, first), second)
    ensures Run(env, Run(env, w, first), second) == Run(env, w, first + second)
    decreases |first|
  {
    if first == [] {
      assert first + second == second;
    } else {
      assert (first + second)[0] == first[0] && (first + second)[1..] == first[1..] + second;
      RunSplit(env, Apply(env, w, first[0]), first[1..], second);
    }
  }
}

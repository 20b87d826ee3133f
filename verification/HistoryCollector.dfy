/** The crawl as the backend runs it: durable fields, one tick per call, proved to take only the steps of Crawl. */
module HistoryCollection {
  import opened Options
  import opened PerplHistory
  import opened Crawl
  import opened CrawlTheorems
  import opened CrawlClaims

  /** How a tick ended: with the sweep, with its page budget, or for one of the reasons it can be cut short. */
  datatype Outcome =
    | Swept | PagesSpent
    | Died | ShutDown | Unreachable | Repeated | MalformedRow | WriteFailed | NotAdvancing | CursorLost

  /**
   What the surroundings do around one page: rows that arrive before and during it, time that passes,
   the venue's page length, and what fails. `survives` is how many event writes succeed before one fails,
   None when none does.
   */
  datatype Turn = Turn(
    shutdown: bool, before: seq<Row>, during: seq<Row>, pause: nat, size: nat,
    reachable: bool, survives: Option<nat>, cursorLost: bool)

  /** Some record of the row does not parse, or it has no stable identity. */
  ghost predicate Unusable(env: Env, row: Row) {
    RowKey(env, row).None? || exists x :: x in Entries(env.stream, row) && NormalizeEntry(env.stream, x, env.binding).Malformed?
  }

  ghost predicate HasUnusable(env: Env, feed: seq<Row>) { exists i :: 0 <= i < |feed| && Unusable(env, feed[i]) }

  /** What it takes for a tick to be cut short at a given turn. */
  ghost predicate CutShort(env: Env, feed: seq<Row>, turn: Turn, o: Outcome) {
    match o
    case ShutDown => turn.shutdown
    case Unreachable => !turn.reachable
    case Repeated => turn.size == 0
    case NotAdvancing => turn.size == 0
    case MalformedRow => HasUnusable(env, feed)
    case WriteFailed => turn.survives.Some?
    case CursorLost => turn.cursorLost
    case _ => false
  }

  /** A tick ends with the sweep, with its budget, with the process, or for a reason some turn gave. */
  ghost predicate Explained(env: Env, feed: seq<Row>, maxPages: nat, schedule: seq<Turn>, o: Outcome) {
    || o.Swept?
    || (o.PagesSpent? && |schedule| >= maxPages)
    || (o.Died? && |schedule| < maxPages)
    || exists k :: 0 <= k < |schedule| && CutShort(env, feed, schedule[k], o)
  }

  ghost predicate Sized(schedule: seq<Turn>) { forall k :: 0 <= k < |schedule| ==> schedule[k].size > 0 }

  /** The sweep goes on, at least one row lower for each page. */
  ghost predicate Lowered(before: Cursor, after: Cursor, pages: nat) {
    after.page.Some? && (before.page.Some? ==> after.page.value + pages <= before.page.value)
  }

  ghost predicate SameClaim(before: Cursor, after: Cursor) { after.syncedThrough == before.syncedThrough && after.anchor == before.anchor }

  class HistoryCollector {
    const env: Env
    // The venue and the wall clock; only Environment changes them.
    var feed: seq<Row>
    var clock: int
    // Durable collections.
    var events: Store
    var cursor: Cursor
    // The history of the object: every step since the start.
    ghost const start: World
    ghost var steps: seq<Label>
    ghost var world: World

    ghost predicate Traced()
      reads this
    {
      Initial(env, start) && Legal(env, start, steps) && world == Run(env, start, steps)
    }

    ghost predicate Valid()
      reads this
    {
      && Traced()
      && world.feed == feed && world.clock == clock && world.store == events && world.cursor == cursor
    }

    constructor (env: Env, feed: seq<Row>, clock: int)
      requires Initial(env, World(feed, clock, map[], FRESH_CURSOR, Idle, 0, 0, 0))
      ensures Valid() && world.worker.Idle? && cursor == FRESH_CURSOR && events == map[]
    {
      this.env := env;
      this.feed, this.clock, this.events, this.cursor := feed, clock, map[], FRESH_CURSOR;
      start := World(feed, clock, map[], FRESH_CURSOR, Idle, 0, 0, 0);
      steps := [];
      world := World(feed, clock, map[], FRESH_CURSOR, Idle, 0, 0, 0);
    }

    ghost method Record(l: Label)
      requires Traced() && Enabled(env, world, l)
      modifies this`steps, this`world
      ensures Traced() && steps == old(steps) + [l] && world == Apply(env, old(world), l)
    {
      RunSnoc(env, start, steps, l);
      steps := steps + [l];
      world := Apply(env, world, l);
    }

    /** Rows arrive and time passes, as the venue pleases, between any two actions of the worker. */
    method Environment(arrivals: seq<Row>, pause: nat)
      requires Valid()
      modifies this
      ensures Valid() && world.worker == old(world.worker)
      ensures old(feed) <= feed && clock == old(clock) + pause
      ensures events == old(events) && cursor == old(cursor)
      ensures old(steps) <= steps
    {
      for i := 0 to |arrivals|
        invariant Valid() && world.worker == old(world.worker)
        invariant old(feed) <= feed && clock == old(clock)
        invariant events == old(events) && cursor == old(cursor)
        invariant old(steps) <= steps
      {
        if Publishable(env, feed, clock, arrivals[i]) {
          Record(Append(arrivals[i]));
          feed := feed + [arrivals[i]];
        }
      }
      Record(Advance(clock + pause));
      clock := clock + pause;
    }

    /** One GET of the feed, or None for a failed request. `size` is the venue's choice of page length. */
    method ReadPage(request: Option<nat>, size: nat, reachable: bool) returns (page: Option<Page>)
      requires request.Some? ==> request.value <= |feed|
      ensures page.Some? ==> Answers(feed, request, page.value) && (page.value.np.Some? ==> page.value.lo == page.value.hi - size)
      ensures page.None? <==> !reachable
    {
      if !reachable { return None; }
      var hi := if request.None? then |feed| else request.value;
      var lo := if hi < size then 0 else hi - size;
      var d := NewestFirst(feed, lo, hi);
      page := Some(Page(d, if lo == 0 then None else Some(lo), lo, hi));
    }

    /** Insert-once writes, one document at a time; a failure keeps those already written. */
    method Save(batch: seq<Event>, survives: Option<nat>) returns (ok: bool)
      requires Valid() && world.worker.Saving? && world.worker.rest == batch
      modifies this
      ensures Valid() && feed == old(feed) && clock == old(clock) && cursor == old(cursor)
      ensures ok <==> survives.None? || |batch| <= survives.value
      ensures ok ==> world.worker == old(world.worker).(rest := []) && events == SaveEvents(old(events), batch)
      ensures !ok ==> world.worker.Idle? && events == SaveEvents(old(events), batch[..survives.value])
      ensures old(steps) <= steps
    {
      var i := 0;
      while i < |batch|
        invariant i <= |batch| && (survives.Some? ==> i <= survives.value) && Valid()
        invariant feed == old(feed) && clock == old(clock) && cursor == old(cursor)
        invariant world.worker == old(world.worker).(rest := batch[i..])
        invariant events == SaveEvents(old(events), batch[..i])
        invariant old(steps) <= steps
      {
        if survives == Some(i) {
          Record(Stop);
          return false;
        }
        SavedSnoc(old(events), batch[..i], batch[i]);
        assert batch[..i + 1] == batch[..i] + [batch[i]];
        Record(SaveOne);
        events := SaveEvent(events, batch[i]);
        i := i + 1;
      }
      assert batch[..i] == batch;
      ok := true;
    }

    /** Requests the page the cursor names, with the surroundings moving before and during the request. */
    method FetchPage(turn: Turn, now: int, state: Cursor, visited: set<Option<nat>>) returns (page: Option<Page>, ghost o: Outcome)
      requires Valid() && world.worker == Ready(now, state, visited) && state == cursor
      modifies this
      ensures Valid() && old(steps) <= steps && cursor == old(cursor) && old(feed) <= feed
      ensures page.Some? ==> world.worker == Fetched(now, state, visited + {state.page}, page.value)
      ensures page.Some? && page.value.np.Some? ==> page.value.np.value == page.value.lo == page.value.hi - turn.size
      ensures page.Some? && state.page.Some? ==> page.value.hi == state.page.value
      ensures page.Some? && old(TokenInv(world)) && turn.size > 0 ==> TokenInv(world)
      ensures page.None? ==> (o.Repeated? && state.page in visited) || CutShort(env, feed, turn, o)
    {
      o := Unreachable;
      Environment(turn.before, turn.pause);
      InvHolds();
      if state.page in visited { return None, Repeated; }
      page := ReadPage(state.page, turn.size, turn.reachable);
      if page.Some? {
        Record(Fetch(page.value));
        Environment(turn.during, turn.pause);
      }
    }

    /** The new records of a page, or None when one of its rows cannot be used. */
    method ParsePage(now: int, state: Cursor, visited: set<Option<nat>>, page: Page) returns (batch: Option<seq<Event>>)
      requires Valid() && world.worker == Fetched(now, state, visited, page) && state == cursor
      modifies this`steps, this`world
      ensures Valid() && old(steps) <= steps
      ensures batch.Some? ==> world.worker == Saving(now, state, visited, page, batch.value)
      ensures batch.Some? ==> NormalizeHistoryEvents(env.stream, NewRows(env, state, page), env.binding) == batch
      ensures batch.None? ==> HasUnusable(env, feed)
    {
      InvHolds();
      // Identities are needed of the whole page, unrelated accounts and old records included.
      if !KeysStable(env, page.d) {
        KeylessRow(page);
        return None;
      }
      var anchorAt := AnchorAt(env, page.d, state.anchor);
      var rows := if anchorAt < 0 then page.d else page.d[..anchorAt];
      batch := NormalizeHistoryEvents(env.stream, rows, env.binding);
      if batch.None? {
        ThrowingRow(page, rows);
        return;
      }
      Record(Parse);
    }

    /** A page row without a stable key lies in the feed. */
    lemma KeylessRow(page: Page)
      requires page.lo <= page.hi <= |feed| && page.d == NewestFirst(feed, page.lo, page.hi) && !KeysStable(env, page.d)
      ensures HasUnusable(env, feed)
    {
      var i :| 0 <= i < |page.d| && RowKey(env, page.d[i]).None?;
      assert Unusable(env, feed[page.hi - 1 - i]);
    }

    /** So does one that makes the batch throw. */
    lemma ThrowingRow(page: Page, rows: seq<Row>)
      requires page.lo <= page.hi <= |feed| && page.d == NewestFirst(feed, page.lo, page.hi) && rows <= page.d
      requires NormalizeHistoryEvents(env.stream, rows, env.binding).None?
      ensures HasUnusable(env, feed)
    {
      var i, x := NormalizeFails(env.stream, rows, env.binding);
      assert feed[page.hi - 1 - i] == rows[i];
      assert Unusable(env, feed[page.hi - 1 - i]);
    }

    /** The cursor after a page, as the durable state then has it. */
    method NextCursor(state: Cursor, page: Page, now: int) returns (next: Cursor)
      requires KeysStable(env, page.d)
      ensures next == AfterPage(env, state, page, now)
    {
      var pendingHead :=
        if state.pendingHead.Some? then state.pendingHead
        else if state.page.None? && page.d != [] then RowKey(env, page.d[0])
        else None;
      var sweepStartedAt := if state.page.None? then Some(now) else state.sweepStartedAt;
      var anchorAt := AnchorAt(env, page.d, state.anchor);
      var done := anchorAt >= 0 || page.np.None?;
      next := Cursor(
        if done then None else page.np,
        if done then (if pendingHead.Some? then pendingHead else state.anchor) else state.anchor,
        if done then None else pendingHead,
        state.backfillComplete || done,
        if done then (if sweepStartedAt.Some? then sweepStartedAt else state.syncedThrough) else state.syncedThrough,
        if done then None else sweepStartedAt);
    }

    /** Stores a page's new records and then the cursor; None when anything on the way throws or is lost. */
    method StorePage(turn: Turn, now: int, state: Cursor, visited: set<Option<nat>>, page: Page) returns (next: Option<Cursor>, ghost o: Outcome)
      requires Valid() && world.worker == Fetched(now, state, visited, page) && state == cursor
      requires page.np.Some? ==> page.lo == page.hi - turn.size
      modifies this
      ensures Valid() && old(steps) <= steps && feed == old(feed)
      ensures next.Some? ==> cursor == next.value == AfterPage(env, state, page, now) && Moved(state, page)
      ensures next.Some? ==> world.worker == if Finished(env, state, page) then Idle else Ready(now, cursor, visited)
      ensures next.Some? && old(TokenInv(world)) ==> TokenInv(world)
      ensures next.None? ==> cursor == old(cursor) && CutShort(env, feed, turn, o)
    {
      o := MalformedRow;
      var batch := ParsePage(now, state, visited, page);
      if batch.None? { return None, MalformedRow; }
      next, o := SavePage(turn, now, state, visited, page, batch.value);
    }

    /** Records first, cursor second. */
    method SavePage(turn: Turn, now: int, state: Cursor, visited: set<Option<nat>>, page: Page, batch: seq<Event>)
      returns (next: Option<Cursor>, ghost o: Outcome)
      requires Valid() && world.worker == Saving(now, state, visited, page, batch) && state == cursor
      requires page.np.Some? ==> page.lo == page.hi - turn.size
      modifies this
      ensures Valid() && old(steps) <= steps && feed == old(feed)
      ensures next.Some? ==> cursor == next.value == AfterPage(env, state, page, now) && events == SaveEvents(old(events), batch) && Moved(state, page)
      ensures next.Some? ==> world.worker == if Finished(env, state, page) then Idle else Ready(now, cursor, visited)
      ensures next.Some? && old(TokenInv(world)) ==> TokenInv(world)
      ensures next.None? ==> cursor == old(cursor) && CutShort(env, feed, turn, o)
    {
      InvHolds();
      o := WriteFailed;
      var saved := Save(batch, turn.survives);
      if !saved { return None, WriteFailed; }
      if page.np.Some? && page.np == state.page { return None, NotAdvancing; }
      var after := NextCursor(state, page, now);
      if turn.cursorLost { return None, CursorLost; }
      MovesClaim();
      Record(SaveCursor);
      cursor := after;
      next := Some(after);
    }

    /** The history, with the claim and the anchor of the sweep whose newest page it read last. */
    ghost predicate ClaimsNewest(before: Cursor)
      reads this
      requires Traced()
    {
      var h := HistoryOf(env, start, steps);
      h.newest.Some? && ClaimsSweep(env, h.newest.value, before, cursor)
    }

    /** A page that ends the sweep claims it; any other leaves claim and anchor and names the next page. */
    ghost predicate Moved(before: Cursor, page: Page)
      reads this
      requires Traced()
    {
      if LastPage(env, before.anchor, page) then cursor.page.None? && ClaimsNewest(before)
      else cursor.page == page.np && SameClaim(before, cursor)
    }

    lemma MovesClaim()
      requires Valid() && Enabled(env, world, SaveCursor)
      ensures var v, more := Apply(env, world, SaveCursor), steps + [SaveCursor];
              && Legal(env, start, more)
              && var h := HistoryOf(env, start, more);
                if LastPage(env, cursor.anchor, world.worker.page)
                then v.cursor.page.None? && h.newest.Some? && ClaimsSweep(env, h.newest.value, cursor, v.cursor)
                else v.cursor.page == world.worker.page.np && SameClaim(cursor, v.cursor)
    {
      InvHolds();
      EndsExactly(env, world);
      SweepEndClaims(env, start, steps, SaveCursor);
      HistorySnoc(env, start, steps, SaveCursor);
    }

    /**
     One tick under a schedule of what happens around each page. Whatever the schedule, the tick takes
     only steps of Crawl, so every theorem over runs holds of the object; two are repeated here. It ends
     short of a sweep only with its budget, with the process, or for a reason the schedule gives; when
     its budget ends it, each page has brought the sweep lower.
     */
    method SyncHistoryStream(maxPages: nat, schedule: seq<Turn>) returns (ghost outcome: Outcome, state: Cursor)
      requires Valid() && world.worker.Idle?
      modifies this
      ensures Valid() && world.worker.Idle? && old(steps) <= steps && state == cursor
      ensures cursor.syncedThrough.Some? ==> Honest(env, world, cursor.syncedThrough.value, env.lag)
      ensures NotBefore(old(cursor.syncedThrough), cursor.syncedThrough)
      ensures outcome.Swept? ==> cursor.page.None? && cursor.backfillComplete && ClaimsNewest(old(cursor))
      ensures !outcome.Swept? ==> SameClaim(old(cursor), cursor)
      ensures Explained(env, feed, maxPages, schedule, outcome)
      ensures outcome.PagesSpent? && maxPages > 0 && Sized(schedule) ==> Lowered(old(cursor), cursor, maxPages)
    {
      outcome := Crawl(maxPages, schedule);
      state := cursor;
      CoverageHonest(env, start, steps);
      TickExtends(old(steps));
    }

    method Crawl(maxPages: nat, schedule: seq<Turn>) returns (ghost outcome: Outcome)
      requires Valid() && world.worker.Idle?
      modifies this
      ensures Valid() && world.worker.Idle? && old(steps) <= steps
      ensures outcome.Swept? ==> cursor.page.None? && cursor.backfillComplete && ClaimsNewest(old(cursor))
      ensures !outcome.Swept? ==> SameClaim(old(cursor), cursor)
      ensures Explained(env, feed, maxPages, schedule, outcome)
      ensures outcome.PagesSpent? && maxPages > 0 && Sized(schedule) ==> Lowered(old(cursor), cursor, maxPages)
    {
      var now, state := clock, cursor;
      var visited: set<Option<nat>> := {};
      Record(StartTick);
      outcome := if |schedule| < maxPages then Died else PagesSpent;
      var i := 0;
      var open := true;
      while open && i < maxPages && i < |schedule|
        invariant Valid() && old(steps) <= steps && i <= |schedule| && i <= maxPages
        invariant open ==> world.worker == Ready(now, state, visited) && state == cursor
        invariant open ==> outcome == if |schedule| < maxPages then Died else PagesSpent
        invariant open && (forall k :: 0 <= k < i ==> schedule[k].size > 0) ==> TokenInv(world)
        invariant outcome.Swept? ==> cursor.page.None? && cursor.backfillComplete && ClaimsNewest(old(cursor))
        invariant !outcome.Swept? ==> SameClaim(old(cursor), cursor)
        invariant Explained(env, feed, maxPages, schedule, outcome)
        invariant i == 0 ==> open && cursor == old(cursor)
        invariant open && i > 0 && Sized(schedule) ==> Lowered(old(cursor), cursor, i)
        invariant !open ==> !outcome.PagesSpent?
        decreases |schedule| - i, open
      {
        if schedule[i].shutdown {
          outcome := ShutDown;
          assert CutShort(env, feed, schedule[i], outcome);
          break;
        }
        var next;
        next, outcome := OnePage(schedule, i, now, state, visited, outcome);
        visited := visited + {state.page};
        open := next.Some? && next.value.page.Some?;
        if next.Some? { state := next.value; }
        i := i + 1;
      }
      HistorySnoc(env, start, steps, Stop);
      Record(Stop);
    }

    /** One round of the loop: None when it is cut short, and then for a reason. */
    method OnePage(schedule: seq<Turn>, i: nat, now: int, state: Cursor, visited: set<Option<nat>>, ghost before: Outcome)
      returns (next: Option<Cursor>, ghost o: Outcome)
      requires Valid() && i < |schedule| && world.worker == Ready(now, state, visited) && state == cursor
      requires (forall k :: 0 <= k < i ==> schedule[k].size > 0) ==> TokenInv(world)
      modifies this
      ensures Valid() && old(steps) <= steps
      ensures next.None? ==> exists k :: 0 <= k < |schedule| && CutShort(env, feed, schedule[k], o)
      ensures next.Some? ==> next.value == cursor && (if cursor.page.None? then o.Swept? && cursor.backfillComplete && ClaimsNewest(state) else o == before)
      ensures next.None? || cursor.page.Some? ==> SameClaim(state, cursor)
      ensures next.None? ==> !o.Swept?
      ensures next.Some? && cursor.page.Some? ==> world.worker == Ready(now, cursor, visited + {state.page})
      ensures next.Some? && cursor.page.Some? && (forall k :: 0 <= k <= i ==> schedule[k].size > 0) ==> TokenInv(world)
      ensures next.Some? && cursor.page.Some? && state.page.Some? ==> cursor.page.value + schedule[i].size == state.page.value
    {
      next, o := None, before;
      var page;
      page, o := FetchPage(schedule[i], now, state, visited);
      if page.None? {
        if o.Repeated? && !CutShort(env, feed, schedule[i], o) {
          ghost var k :| 0 <= k < i && schedule[k].size == 0;
          assert CutShort(env, feed, schedule[k], o);
        }
        return;
      }
      next, o := StorePage(schedule[i], now, state, visited + {state.page}, page.value);
      if next.Some? {
        o := if next.value.page.None? then Swept else before;
      }
    }

    lemma InvHolds()
      requires Valid()
      ensures Inv(env, world)
    {
      InitialInv(env, start);
      RunKeeps(env, start, steps);
    }

    lemma TickExtends(before: seq<Label>)
      requires Valid() && before <= steps
      ensures Legal(env, start, before) && Extends(world, Run(env, start, before))
    {
      RunPrefix(env, start, steps, |before|);
      assert steps[..|before|] == before;
      InitialInv(env, start);
      RunKeeps(env, start, before);
      NeverGoesBack(env, Run(env, start, before), steps[|before|..]);
    }
  }

  lemma {:induction false} SavedSnoc(store: Store, batch: seq<Event>, e: Event)
    ensures SaveEvents(store, batch + [e]) == SaveEvent(SaveEvents(store, batch), e)
    decreases |batch|
  {
    if batch == [] {
      assert [] + [e] == [e] && [e][1..] == [];
    } else {
      assert (batch + [e])[0] == batch[0] && (batch + [e])[1..] == batch[1..] + [e];
      SavedSnoc(SaveEvent(store, batch[0]), batch[1..], e);
    }
  }
}

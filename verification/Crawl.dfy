// The restart-safe crawl of one history stream.
//
// The venue's feed is an append-only sequence, oldest first; a page token is the number of rows older
// than the page it asks for. A run is a list of steps: the feed grows, the clock moves, and the worker
// loads its cursor, fetches, saves one event at a time and finally saves the cursor. `Stop` is a spent
// page budget, a shutdown, a thrown error or a crash, and may fall between any two of those writes.
module Crawl {
  import opened Options
  import opened PerplHistory

  /**
   What stays fixed over a run. `truth` is the one event an identity stands for; `lag` is how long
   after its own stamp the venue may take to publish a record (0: visible by its timestamp).
   */
  datatype Env = Env(stream: Stream, binding: Binding, lag: int, truth: Identity -> Event)

  datatype Cursor = Cursor(
    page: Option<nat>, anchor: Option<Identity>, pendingHead: Option<Identity>,
    backfillComplete: bool, syncedThrough: Option<int>, sweepStartedAt: Option<int>)

  const FRESH_CURSOR := Cursor(None, None, None, false, None, None)

  /** A page, newest row first. `lo` and `hi` name the rows it spans; the code never reads them. */
  datatype Page = Page(d: seq<Row>, np: Option<nat>, lo: nat, hi: nat)

  datatype Worker =
    | Idle
    | Ready(now: int, state: Cursor, visited: set<Option<nat>>)
    | Fetched(now: int, state: Cursor, visited: set<Option<nat>>, page: Page)
    | Saving(now: int, state: Cursor, visited: set<Option<nat>>, page: Page, rest: seq<Event>)

  /**
   Feed, clock, the two durable collections and the worker. `head`, `sweepClock` and `anchored` are
   bookkeeping the worker never reads: where and when the current sweep began, and how many rows lie
   at or below the anchor.
   */
  datatype World = World(
    feed: seq<Row>, clock: int, store: Store, cursor: Cursor, worker: Worker,
    head: nat, sweepClock: int, anchored: nat)

  datatype Label = Append(row: Row) | Advance(clock: int) | StartTick | Fetch(page: Page) | Parse | SaveOne | SaveCursor | Stop

  // ---- What the code computes from one page ----

  function RowKey(env: Env, row: Row): Option<Identity> {
    EventIdentity(env.stream, row.own)
  }

  predicate KeysStable(env: Env, rows: seq<Row>) {
    forall i :: 0 <= i < |rows| ==> RowKey(env, rows[i]).Some?
  }

  /** `keys.indexOf(anchor)`, with -1 for a missing anchor or a missing key. */
  function AnchorAt(env: Env, rows: seq<Row>, anchor: Option<Identity>): (at: int)
    ensures -1 <= at < |rows|
    ensures at >= 0 ==> anchor.Some? && RowKey(env, rows[at]) == anchor
    ensures at < 0 && anchor.Some? ==> forall i :: 0 <= i < |rows| ==> RowKey(env, rows[i]) != anchor
  {
    if anchor.None? then -1 else FirstIndex(env, rows, anchor, 0)
  }

  function FirstIndex(env: Env, rows: seq<Row>, key: Option<Identity>, from: nat): (at: int)
    requires from <= |rows|
    ensures at == -1 || (from <= at < |rows| && RowKey(env, rows[at]) == key)
    ensures at < 0 ==> forall i :: from <= i < |rows| ==> RowKey(env, rows[i]) != key
    decreases |rows| - from
  {
    if from == |rows| then -1
    else if RowKey(env, rows[from]) == key then from
    else FirstIndex(env, rows, key, from + 1)
  }

  /** The rows newer than the anchor. */
  function NewRows(env: Env, state: Cursor, page: Page): seq<Row> {
    var at := AnchorAt(env, page.d, state.anchor);
    if at < 0 then page.d else page.d[..at]
  }

  predicate Finished(env: Env, state: Cursor, page: Page) {
    AnchorAt(env, page.d, state.anchor) >= 0 || page.np.None?
  }

  function PendingHead(env: Env, state: Cursor, page: Page): Option<Identity> {
    if state.pendingHead.Some? then state.pendingHead
    else if state.page.None? && page.d != [] then RowKey(env, page.d[0])
    else None
  }

  function SweepStart(state: Cursor, now: int): Option<int> {
    if state.page.None? then Some(now) else state.sweepStartedAt
  }

  function OrElse<T>(a: Option<T>, b: Option<T>): Option<T> {
    if a.Some? then a else b
  }

  function AfterPage(env: Env, state: Cursor, page: Page, now: int): Cursor {
    var done := Finished(env, state, page);
    var pendingHead := PendingHead(env, state, page);
    var sweep := SweepStart(state, now);
    Cursor(
      if done then None else page.np,
      if done then OrElse(pendingHead, state.anchor) else state.anchor,
      if done then None else pendingHead,
      state.backfillComplete || done,
      if done then OrElse(sweep, state.syncedThrough) else state.syncedThrough,
      if done then None else sweep)
  }

  // ---- The venue ----

  function NewestFirst(feed: seq<Row>, lo: nat, hi: nat): (d: seq<Row>)
    requires lo <= hi <= |feed|
    ensures |d| == hi - lo
    ensures forall i :: 0 <= i < |d| ==> d[i] == feed[hi - 1 - i]
  {
    seq(hi - lo, i requires 0 <= i < hi - lo => feed[hi - 1 - i])
  }

  /** An honest answer: rows from the token downwards, and an end only at the oldest row. */
  ghost predicate Answers(feed: seq<Row>, request: Option<nat>, page: Page) {
    && page.lo <= page.hi <= |feed|
    && page.hi == (if request.None? then |feed| else request.value)
    && page.d == NewestFirst(feed, page.lo, page.hi)
    && (page.np.None? ==> page.lo == 0)
    && (page.np.Some? ==> page.np.value == page.lo)
  }

  /** A new row has a new identity, tells the truth, and is not published later than the lag allows. */
  predicate Publishable(env: Env, feed: seq<Row>, clock: int, row: Row) {
    && (RowKey(env, row).Some? ==> forall i :: 0 <= i < |feed| ==> RowKey(env, feed[i]) != RowKey(env, row))
    && (forall x :: x in Entries(env.stream, row) ==> x.at.t + env.lag > clock && Truthful(env, x))
  }

  predicate Truthful(env: Env, x: RawEvent) {
    var n := NormalizeEntry(env.stream, x, env.binding);
    n.Kept? ==> env.truth(n.event.id) == n.event
  }

  // ---- Steps ----

  ghost predicate Enabled(env: Env, w: World, l: Label) {
    match l
    case Append(row) => Publishable(env, w.feed, w.clock, row)
    case Advance(t) => t >= w.clock
    case StartTick => w.worker.Idle?
    case Fetch(page) => w.worker.Ready? && w.worker.state.page !in w.worker.visited && Answers(w.feed, w.worker.state.page, page)
    case Parse => w.worker.Fetched? && KeysStable(env, w.worker.page.d)
                  && NormalizeHistoryEvents(env.stream, NewRows(env, w.worker.state, w.worker.page), env.binding).Some?
    case SaveOne => w.worker.Saving? && w.worker.rest != []
    case SaveCursor => w.worker.Saving? && w.worker.rest == [] && !(w.worker.page.np.Some? && w.worker.page.np == w.worker.state.page)
    case Stop => true
  }

  ghost function Apply(env: Env, w: World, l: Label): World
    requires Enabled(env, w, l)
  {
    match l
    case Append(row) => w.(feed := w.feed + [row])
    case Advance(t) => w.(clock := t)
    case StartTick => w.(worker := Ready(w.clock, w.cursor, {}))
    case Fetch(page) =>
      var k := w.worker;
      w.(worker := Fetched(k.now, k.state, k.visited + {k.state.page}, page))
    case Parse =>
      var k := w.worker;
      var rows := NewRows(env, k.state, k.page);
      w.(worker := Saving(k.now, k.state, k.visited, k.page, NormalizeHistoryEvents(env.stream, rows, env.binding).value))
    case SaveOne =>
      var k := w.worker;
      w.(store := SaveEvent(w.store, k.rest[0]), worker := k.(rest := k.rest[1..]))
    case SaveCursor =>
      var k := w.worker;
      var next := AfterPage(env, k.state, k.page, k.now);
      var done := Finished(env, k.state, k.page);
      var head := if k.state.page.None? then k.page.hi else w.head;
      World(
        w.feed, w.clock, w.store, next,
        if done then Idle else Ready(k.now, next, k.visited),
        head,
        if k.state.page.None? then k.now else w.sweepClock,
        if done && PendingHead(env, k.state, k.page).Some? then head else w.anchored)
    case Stop => w.(worker := Idle)
  }

  ghost predicate Legal(env: Env, w: World, run: seq<Label>)
    decreases |run|
  {
    run != [] ==> Enabled(env, w, run[0]) && Legal(env, Apply(env, w, run[0]), run[1..])
  }

  ghost function Run(env: Env, w: World, run: seq<Label>): World
    requires Legal(env, w, run)
    decreases |run|
  {
    if run == [] then w else Run(env, Apply(env, w, run[0]), run[1..])
  }

  /** Any feed the venue may already hold, with nothing collected yet. */
  ghost predicate Initial(env: Env, w: World) {
    w.store == map[] && w.cursor == FRESH_CURSOR && w.worker.Idle? && w.anchored == 0 && FeedInv(env, w)
  }

  // ---- What every step keeps ----

  ghost predicate EntryStored(env: Env, store: Store, x: RawEvent) {
    var n := NormalizeEntry(env.stream, x, env.binding);
    !n.Malformed? && (n.Kept? ==> n.event.id in store && store[n.event.id] == n.event)
  }

  ghost predicate RowStored(env: Env, store: Store, row: Row) {
    forall x :: x in Entries(env.stream, row) ==> EntryStored(env, store, x)
  }

  ghost predicate RowsStored(env: Env, store: Store, feed: seq<Row>, lo: nat, hi: nat) {
    hi <= |feed| && forall i :: lo <= i < hi ==> RowStored(env, store, feed[i])
  }

  /** Every record of the row is stamped after `t`, allowing for the lag. */
  ghost predicate RowLate(env: Env, row: Row, t: int) {
    forall x :: x in Entries(env.stream, row) ==> x.at.t + env.lag > t
  }

  ghost predicate LateFrom(env: Env, feed: seq<Row>, from: nat, t: int) {
    from <= |feed| && forall i :: from <= i < |feed| ==> RowLate(env, feed[i], t)
  }

  /** Coverage: each record of the feed stamped at or before `t` is stored, if it is in scope at all. */
  ghost predicate Covered(env: Env, w: World, t: int) {
    forall i, x :: 0 <= i < |w.feed| && x in Entries(env.stream, w.feed[i]) && x.at.t + env.lag <= t ==> EntryStored(env, w.store, x)
  }

  /** The event is what some record of the feed normalises to. */
  ghost predicate InFeed(env: Env, feed: seq<Row>, e: Event) {
    exists i, x :: 0 <= i < |feed| && x in Entries(env.stream, feed[i]) && NormalizeEntry(env.stream, x, env.binding) == Kept(e)
  }

  ghost predicate KeysApart(env: Env, feed: seq<Row>) {
    forall i, j :: 0 <= i < j < |feed| && RowKey(env, feed[i]).Some? ==> RowKey(env, feed[i]) != RowKey(env, feed[j])
  }

  ghost predicate FeedInv(env: Env, w: World) {
    && KeysApart(env, w.feed)
    && (forall i, x :: 0 <= i < |w.feed| && x in Entries(env.stream, w.feed[i]) ==> Truthful(env, x))
    && (forall id :: id in w.store ==> w.store[id].id == id && InFeed(env, w.feed, w.store[id]))
  }

  ghost predicate AnchorInv(env: Env, w: World) {
    && RowsStored(env, w.store, w.feed, 0, w.anchored)
    && (w.cursor.anchor.Some? ==> 0 < w.anchored && RowKey(env, w.feed[w.anchored - 1]) == w.cursor.anchor)
  }

  /** Mid-sweep: stored from the page position up to the head, and only late rows above the head. */
  ghost predicate SweepInv(env: Env, w: World) {
    var c := w.cursor;
    if c.page.None? then c.pendingHead.None? && c.sweepStartedAt.None?
    else
      && c.sweepStartedAt == Some(w.sweepClock) && w.sweepClock <= w.clock
      && c.page.value <= w.head
      && RowsStored(env, w.store, w.feed, c.page.value, w.head)
      && LateFrom(env, w.feed, w.head, w.sweepClock)
      && (c.pendingHead.Some? ==> 0 < w.head && RowKey(env, w.feed[w.head - 1]) == c.pendingHead)
      && (c.syncedThrough.Some? ==> c.syncedThrough.value <= w.sweepClock)
  }

  ghost predicate CoverageInv(env: Env, w: World) {
    && w.cursor.backfillComplete == w.cursor.syncedThrough.Some?
    && (w.cursor.syncedThrough.Some? ==> w.cursor.syncedThrough.value <= w.clock && Covered(env, w, w.cursor.syncedThrough.value))
  }

  /** A page fetched at or after `now`, still true of the feed however far it has grown since. */
  ghost predicate PageInv(env: Env, w: World, state: Cursor, page: Page, now: int) {
    && page.lo <= page.hi <= |w.feed|
    && page.d == NewestFirst(w.feed, page.lo, page.hi)
    && (page.np.None? ==> page.lo == 0)
    && (page.np.Some? ==> page.np.value == page.lo)
    && (if state.page.None? then LateFrom(env, w.feed, page.hi, now) else page.hi == state.page.value)
  }

  ghost predicate SavingInv(env: Env, w: World) {
    var k := w.worker;
    k.Saving? ==>
      && KeysStable(env, k.page.d)
      && var es := NormalizeHistoryEvents(env.stream, NewRows(env, k.state, k.page), env.binding);
        && es.Some?
        && (forall e :: e in es.value ==> e.id in w.store || e in k.rest)
        && (forall e :: e in k.rest ==> e in es.value)
  }

  ghost predicate WorkerInv(env: Env, w: World) {
    var k := w.worker;
    !k.Idle? ==>
      && k.state == w.cursor
      && k.now <= w.clock
      && (w.cursor.syncedThrough.Some? ==> w.cursor.syncedThrough.value <= k.now)
      && (!k.Ready? ==> PageInv(env, w, k.state, k.page, k.now))
      && SavingInv(env, w)
  }

  ghost predicate Inv(env: Env, w: World) {
    FeedInv(env, w) && AnchorInv(env, w) && SweepInv(env, w) && CoverageInv(env, w) && WorkerInv(env, w)
  }

  // ---- Proof, one step at a time ----

  lemma RowsStoredGrows(env: Env, small: Store, large: Store, feed: seq<Row>, lo: nat, hi: nat)
    requires RowsStored(env, small, feed, lo, hi)
    requires forall id :: id in small ==> id in large && large[id] == small[id]
    ensures RowsStored(env, large, feed, lo, hi)
  {
    forall i | lo <= i < hi ensures RowStored(env, large, feed[i]) {
      assert RowStored(env, small, feed[i]);
    }
  }

  /** An event waiting to be saved comes from the feed and is the one its identity stands for. */
  lemma RestTruthful(env: Env, w: World)
    requires FeedInv(env, w) && WorkerInv(env, w) && w.worker.Saving? && w.worker.rest != []
    ensures InFeed(env, w.feed, w.worker.rest[0]) && env.truth(w.worker.rest[0].id) == w.worker.rest[0]
  {
    var k := w.worker;
    var i, x := RestFromRows(env, w);
    assert NewRows(env, k.state, k.page)[i] == w.feed[k.page.hi - 1 - i];
    assert Truthful(env, x);
  }

  lemma RestFromRows(env: Env, w: World) returns (i: nat, x: RawEvent)
    requires SavingInv(env, w) && w.worker.Saving? && w.worker.rest != []
    ensures var rows := NewRows(env, w.worker.state, w.worker.page);
            i < |rows| && x in Entries(env.stream, rows[i]) && NormalizeEntry(env.stream, x, env.binding) == Kept(w.worker.rest[0])
  {
    var k := w.worker;
    var rows := NewRows(env, k.state, k.page);
    NormalizeExact(env.stream, rows, env.binding);
    var e := k.rest[0];
    assert e in k.rest;
    i, x :| 0 <= i < |rows| && x in Entries(env.stream, rows[i]) && NormalizeEntry(env.stream, x, env.binding) == Kept(e);
  }

  lemma InFeedGrows(env: Env, feed: seq<Row>, row: Row, e: Event)
    requires InFeed(env, feed, e)
    ensures InFeed(env, feed + [row], e)
  {
    var i, x :| 0 <= i < |feed| && x in Entries(env.stream, feed[i]) && NormalizeEntry(env.stream, x, env.binding) == Kept(e);
    assert (feed + [row])[i] == feed[i];
  }

  /** An identity has one event, so a stored event is the true one. */
  lemma StoredIsTrue(env: Env, w: World, id: Identity)
    requires FeedInv(env, w) && id in w.store
    ensures w.store[id] == env.truth(id)
  {
    var e := w.store[id];
    var i, x :| 0 <= i < |w.feed| && x in Entries(env.stream, w.feed[i]) && NormalizeEntry(env.stream, x, env.binding) == Kept(e);
    assert Truthful(env, x);
  }

  lemma AppendKeeps(env: Env, w: World, row: Row)
    requires Inv(env, w) && Publishable(env, w.feed, w.clock, row)
    ensures Inv(env, Apply(env, w, Append(row)))
  {
    AppendKeepsFeed(env, w, row);
    AppendKeepsSweep(env, w, row);
    AppendKeepsWorker(env, w, row);
  }

  lemma AppendKeepsFeed(env: Env, w: World, row: Row)
    requires FeedInv(env, w) && Publishable(env, w.feed, w.clock, row)
    ensures FeedInv(env, Apply(env, w, Append(row)))
  {
    var v := Apply(env, w, Append(row));
    assert forall i :: 0 <= i < |w.feed| ==> v.feed[i] == w.feed[i];
    forall id | id in w.store ensures InFeed(env, v.feed, w.store[id]) {
      InFeedGrows(env, w.feed, row, w.store[id]);
    }
  }

  lemma AppendKeepsSweep(env: Env, w: World, row: Row)
    requires AnchorInv(env, w) && SweepInv(env, w) && CoverageInv(env, w) && Publishable(env, w.feed, w.clock, row)
    ensures var v := Apply(env, w, Append(row)); AnchorInv(env, v) && SweepInv(env, v) && CoverageInv(env, v)
  {
    var v := Apply(env, w, Append(row));
    assert forall i :: 0 <= i < |w.feed| ==> v.feed[i] == w.feed[i];
    assert v.feed[|w.feed|] == row;
  }

  lemma AppendKeepsWorker(env: Env, w: World, row: Row)
    requires WorkerInv(env, w) && Publishable(env, w.feed, w.clock, row)
    ensures WorkerInv(env, Apply(env, w, Append(row)))
  {
    var v := Apply(env, w, Append(row));
    if !w.worker.Idle? && !w.worker.Ready? {
      var page := w.worker.page;
      assert NewestFirst(v.feed, page.lo, page.hi) == NewestFirst(w.feed, page.lo, page.hi);
    }
  }

  lemma CoveredGrows(env: Env, w: World, v: World, t: int)
    requires Covered(env, w, t) && v.feed == w.feed
    requires forall id :: id in w.store ==> id in v.store && v.store[id] == w.store[id]
    ensures Covered(env, v, t)
  {
  }

  lemma SaveOneKeepsDurable(env: Env, w: World)
    requires Inv(env, w) && Enabled(env, w, SaveOne)
    ensures var v := Apply(env, w, SaveOne); AnchorInv(env, v) && SweepInv(env, v) && CoverageInv(env, v)
  {
    var v := Apply(env, w, SaveOne);
    assert OneStored(w, v);
    AnchorGrows(env, w, v);
    SweepGrows(env, w, v);
    CoverageGrows(env, w, v);
  }

  /** The store has grown and nothing else durable has changed. */
  ghost predicate OneStored(w: World, v: World) {
    && v == w.(store := v.store, worker := v.worker)
    && forall id :: id in w.store ==> id in v.store && v.store[id] == w.store[id]
  }

  lemma AnchorGrows(env: Env, w: World, v: World)
    requires AnchorInv(env, w) && OneStored(w, v)
    ensures AnchorInv(env, v)
  {
    RowsStoredGrows(env, w.store, v.store, w.feed, 0, w.anchored);
  }

  lemma SweepGrows(env: Env, w: World, v: World)
    requires SweepInv(env, w) && OneStored(w, v)
    ensures SweepInv(env, v)
  {
    if w.cursor.page.Some? { RowsStoredGrows(env, w.store, v.store, w.feed, w.cursor.page.value, w.head); }
  }

  lemma CoverageGrows(env: Env, w: World, v: World)
    requires CoverageInv(env, w) && OneStored(w, v)
    ensures CoverageInv(env, v)
  {
    if w.cursor.syncedThrough.Some? { CoveredGrows(env, w, v, w.cursor.syncedThrough.value); }
  }

  lemma SaveOneKeepsFeed(env: Env, w: World)
    requires Inv(env, w) && Enabled(env, w, SaveOne)
    ensures FeedInv(env, Apply(env, w, SaveOne))
  {
    RestTruthful(env, w);
    FeedGrows(env, w, Apply(env, w, SaveOne), w.worker.rest[0]);
  }

  lemma FeedGrows(env: Env, w: World, v: World, e: Event)
    requires FeedInv(env, w) && v.feed == w.feed && v.store == SaveEvent(w.store, e) && InFeed(env, w.feed, e)
    ensures FeedInv(env, v)
  {
  }

  lemma SaveOneKeeps(env: Env, w: World)
    requires Inv(env, w) && Enabled(env, w, SaveOne)
    ensures Inv(env, Apply(env, w, SaveOne))
  {
    SaveOneKeepsFeed(env, w);
    SaveOneKeepsDurable(env, w);
    SaveOneKeepsSaving(env, w);
  }

  lemma SaveOneKeepsSaving(env: Env, w: World)
    requires SavingInv(env, w) && Enabled(env, w, SaveOne)
    ensures SavingInv(env, Apply(env, w, SaveOne))
  {
    var rest := w.worker.rest;
    assert rest == [rest[0]] + rest[1..];
  }

  /** Once its events are saved, a page's new rows are all stored. */
  lemma PageRowsStored(env: Env, w: World)
    requires Inv(env, w) && w.worker.Saving? && w.worker.rest == []
    ensures var page := w.worker.page;
            RowsStored(env, w.store, w.feed, page.hi - |NewRows(env, w.worker.state, page)|, page.hi)
  {
    var k := w.worker;
    var rows := NewRows(env, k.state, k.page);
    NormalizeExact(env.stream, rows, env.binding);
    forall i | k.page.hi - |rows| <= i < k.page.hi ensures RowStored(env, w.store, w.feed[i]) {
      var j := k.page.hi - 1 - i;
      assert rows[j] == w.feed[i];
      forall x | x in Entries(env.stream, w.feed[i]) ensures EntryStored(env, w.store, x) {
        assert Truthful(env, x);
        var n := NormalizeEntry(env.stream, x, env.binding);
        if n.Kept? {
          StoredIsTrue(env, w, n.event.id);
        }
      }
    }
  }

  /** When a page ends the sweep, everything below the sweep's head is stored. */
  lemma FinishStoresBelowHead(env: Env, w: World)
    requires Inv(env, w) && Enabled(env, w, SaveCursor)
    requires Finished(env, w.worker.state, w.worker.page)
    ensures RowsStored(env, w.store, w.feed, 0, Apply(env, w, SaveCursor).head)
  {
    PageRowsStored(env, w);
    var k := w.worker;
    if AnchorAt(env, k.page.d, k.state.anchor) >= 0 { NewRowsMeetAnchor(env, w); }
    if k.state.page.Some? { PageMeetsSweep(env, w); }
    assert RowsStored(env, w.store, w.feed, 0, k.page.hi);
  }

  /** The rows a page has above its anchor begin where the anchored ones end. */
  lemma NewRowsMeetAnchor(env: Env, w: World)
    requires KeysApart(env, w.feed) && AnchorInv(env, w) && WorkerInv(env, w) && w.worker.Saving? && AnchorAt(env, w.worker.page.d, w.worker.state.anchor) >= 0
    ensures w.worker.page.hi - |NewRows(env, w.worker.state, w.worker.page)| == w.anchored
  {
    var k := w.worker;
    var at := AnchorAt(env, k.page.d, k.state.anchor);
    assert k.page.d[at] == w.feed[k.page.hi - 1 - at];
    KeyNamesRow(env, w.feed, k.page.hi - 1 - at, w.anchored - 1);
  }

  lemma KeyNamesRow(env: Env, feed: seq<Row>, a: nat, b: nat)
    requires KeysApart(env, feed) && a < |feed| && b < |feed| && RowKey(env, feed[a]).Some? && RowKey(env, feed[a]) == RowKey(env, feed[b])
    ensures a == b
  {
  }

  /** A later page of a sweep ends where the rows stored so far begin. */
  lemma PageMeetsSweep(env: Env, w: World)
    requires SweepInv(env, w) && WorkerInv(env, w) && w.worker.Saving? && w.worker.state.page.Some?
    ensures RowsStored(env, w.store, w.feed, w.worker.page.hi, w.head)
  {
  }

  lemma SaveCursorAnchor(env: Env, w: World)
    requires Inv(env, w) && Enabled(env, w, SaveCursor)
    ensures AnchorInv(env, Apply(env, w, SaveCursor))
  {
    if Finished(env, w.worker.state, w.worker.page) { FinishAnchors(env, w); }
  }

  /** The page that ends the sweep makes its head the anchor, if it had one. */
  lemma FinishAnchors(env: Env, w: World)
    requires Inv(env, w) && Enabled(env, w, SaveCursor) && Finished(env, w.worker.state, w.worker.page)
    ensures AnchorInv(env, Apply(env, w, SaveCursor))
  {
    FinishStoresBelowHead(env, w);
    HeadIsNamed(env, w);
  }

  /** The pending head a page leaves names the last row below the sweep's head. */
  lemma HeadIsNamed(env: Env, w: World)
    requires SweepInv(env, w) && WorkerInv(env, w) && Enabled(env, w, SaveCursor)
    ensures var head, v := PendingHead(env, w.worker.state, w.worker.page), Apply(env, w, SaveCursor);
            head.Some? ==> 0 < v.head <= |v.feed| && RowKey(env, v.feed[v.head - 1]) == head
  {
    var k := w.worker;
    if k.page.d != [] {
      assert k.page.d[0] == w.feed[k.page.hi - 1];
    }
  }

  lemma SaveCursorSweep(env: Env, w: World)
    requires Inv(env, w) && Enabled(env, w, SaveCursor)
    ensures SweepInv(env, Apply(env, w, SaveCursor))
  {
    if !Finished(env, w.worker.state, w.worker.page) { SweepGoesOn(env, w); }
  }

  /** The page found no anchor and names a further page: its rows join those stored below the sweep's head. */
  lemma SweepGoesOn(env: Env, w: World)
    requires Inv(env, w) && Enabled(env, w, SaveCursor) && !Finished(env, w.worker.state, w.worker.page)
    ensures SweepInv(env, Apply(env, w, SaveCursor))
  {
    var k, v := w.worker, Apply(env, w, SaveCursor);
    PageRowsStored(env, w);
    assert NewRows(env, k.state, k.page) == k.page.d;
    assert RowsStored(env, w.store, w.feed, k.page.lo, v.head);
    if k.page.d != [] {
      assert k.page.d[0] == w.feed[k.page.hi - 1];
    }
  }

  lemma SaveCursorCoverage(env: Env, w: World)
    requires Inv(env, w) && Enabled(env, w, SaveCursor)
    ensures CoverageInv(env, Apply(env, w, SaveCursor))
  {
    var v := Apply(env, w, SaveCursor);
    if Finished(env, w.worker.state, w.worker.page) {
      FinishStoresBelowHead(env, w);
      assert LateFrom(env, v.feed, v.head, v.sweepClock);
      assert Covered(env, v, v.sweepClock);
    }
  }

  lemma SaveCursorKeeps(env: Env, w: World)
    requires Inv(env, w) && Enabled(env, w, SaveCursor)
    ensures Inv(env, Apply(env, w, SaveCursor))
  {
    SaveCursorAnchor(env, w);
    SaveCursorSweep(env, w);
    SaveCursorCoverage(env, w);
  }

  lemma ClockKeeps(env: Env, w: World, t: int)
    requires Inv(env, w) && t >= w.clock
    ensures Inv(env, Apply(env, w, Advance(t)))
  {
  }

  lemma StartKeeps(env: Env, w: World)
    requires Inv(env, w) && Enabled(env, w, StartTick)
    ensures Inv(env, Apply(env, w, StartTick))
  {
  }

  lemma FetchKeeps(env: Env, w: World, page: Page)
    requires Inv(env, w) && Enabled(env, w, Fetch(page))
    ensures Inv(env, Apply(env, w, Fetch(page)))
  {
  }

  lemma ParseKeeps(env: Env, w: World)
    requires Inv(env, w) && Enabled(env, w, Parse)
    ensures Inv(env, Apply(env, w, Parse))
  {
  }

  lemma StopKeeps(env: Env, w: World)
    requires Inv(env, w)
    ensures Inv(env, Apply(env, w, Stop))
  {
  }

  lemma StepKeeps(env: Env, w: World, l: Label)
    requires Inv(env, w) && Enabled(env, w, l)
    ensures Inv(env, Apply(env, w, l))
  {
    match l
    case Append(row) => AppendKeeps(env, w, row);
    case Advance(t) => ClockKeeps(env, w, t);
    case StartTick => StartKeeps(env, w);
    case Fetch(page) => FetchKeeps(env, w, page);
    case Parse => ParseKeeps(env, w);
    case SaveOne => SaveOneKeeps(env, w);
    case SaveCursor => SaveCursorKeeps(env, w);
    case Stop => StopKeeps(env, w);
  }

  lemma {:induction false} RunKeeps(env: Env, w: World, run: seq<Label>)
    requires Inv(env, w) && Legal(env, w, run)
    ensures Inv(env, Run(env, w, run))
    decreases |run|
  {
    if run != [] {
      StepKeeps(env, w, run[0]);
      RunKeeps(env, Apply(env, w, run[0]), run[1..]);
    }
  }
}

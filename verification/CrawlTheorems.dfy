/** What the crawl promises over every run: any feed growth, budget, stop and crash schedule. */
module CrawlTheorems {
  import opened Options
  import opened PerplHistory
  import opened Crawl

  lemma InitialInv(env: Env, w: World)
    requires Initial(env, w)
    ensures Inv(env, w)
  {
  }

  lemma {:induction false} RunSnoc(env: Env, w: World, run: seq<Label>, l: Label)
    requires Legal(env, w, run) && Enabled(env, Run(env, w, run), l)
    ensures Legal(env, w, run + [l])
    ensures Run(env, w, run + [l]) == Apply(env, Run(env, w, run), l)
    decreases |run|
  {
    if run == [] {
      assert run + [l] == [l];
      assert [l][1..] == [];
    } else {
      assert (run + [l])[0] == run[0] && (run + [l])[1..] == run[1..] + [l];
      RunSnoc(env, Apply(env, w, run[0]), run[1..], l);
    }
  }

  lemma {:induction false} RunPrefix(env: Env, w: World, run: seq<Label>, n: nat)
    requires Legal(env, w, run) && n <= |run|
    ensures Legal(env, w, run[..n]) && Legal(env, Run(env, w, run[..n]), run[n..])
    ensures Run(env, w, run) == Run(env, Run(env, w, run[..n]), run[n..])
    decreases n
  {
    if n == 0 {
      assert run[..0] == [] && run[0..] == run;
    } else {
      RunPrefix(env, Apply(env, w, run[0]), run[1..], n - 1);
      assert run[..n][1..] == run[1..][..n - 1] && run[..n][0] == run[0];
      assert run[1..][n - 1..] == run[n..];
    }
  }

  // ---- Completeness ----

  /** Every record of the row that normalises to an event is stored, and no record of it is malformed. */
  ghost predicate Recorded(env: Env, w: World, i: nat)
    requires i < |w.feed|
  {
    forall x :: x in Entries(env.stream, w.feed[i]) ==>
      match NormalizeEntry(env.stream, x, env.binding)
      case Malformed => false
      case Skipped => true
      case Kept(e) => e.id in w.store && w.store[e.id] == e
  }

  /** At or below the anchor nothing is missing; mid-sweep, nothing from the pending head down to the page. */
  lemma CrawlComplete(env: Env, start: World, run: seq<Label>)
    requires Initial(env, start) && Legal(env, start, run)
    ensures var w := Run(env, start, run);
            && (forall a, i :: 0 <= i <= a < |w.feed| && w.cursor.anchor.Some? && RowKey(env, w.feed[a]) == w.cursor.anchor
                  ==> Recorded(env, w, i))
            && (forall h, i :: w.cursor.page.Some? && w.cursor.page.value <= i <= h < |w.feed|
                  && w.cursor.pendingHead.Some? && RowKey(env, w.feed[h]) == w.cursor.pendingHead
                  ==> Recorded(env, w, i))
  {
    InitialInv(env, start);
    RunKeeps(env, start, run);
    var w := Run(env, start, run);
    forall i: nat | i < |w.feed| && RowStored(env, w.store, w.feed[i]) ensures Recorded(env, w, i) {
      forall x | x in Entries(env.stream, w.feed[i]) ensures EntryStored(env, w.store, x) {}
    }
  }

  // ---- Coverage ----

  /** Any in-scope event stamped (with the lag) at or before `t` is in the store, as the venue sent it. */
  ghost predicate Honest(env: Env, w: World, t: int, lag: int) {
    forall i, x :: 0 <= i < |w.feed| && x in Entries(env.stream, w.feed[i]) && x.at.t + lag <= t ==>
      match NormalizeEntry(env.stream, x, env.binding)
      case Malformed => false
      case Skipped => true
      case Kept(e) => e.id in w.store && w.store[e.id] == e
  }

  lemma CoverageHonest(env: Env, start: World, run: seq<Label>)
    requires Initial(env, start) && Legal(env, start, run)
    ensures var w := Run(env, start, run);
            && w.cursor.backfillComplete == w.cursor.syncedThrough.Some?
            && (w.cursor.syncedThrough.Some? ==> Honest(env, w, w.cursor.syncedThrough.value, env.lag))
  {
    InitialInv(env, start);
    RunKeeps(env, start, run);
    var w := Run(env, start, run);
    if w.cursor.syncedThrough.Some? {
      var t := w.cursor.syncedThrough.value;
      forall i, x | 0 <= i < |w.feed| && x in Entries(env.stream, w.feed[i]) && x.at.t + env.lag <= t
        ensures EntryStored(env, w.store, x) {}
    }
  }

  /** Nothing is invented: a stored event is what a record of the feed says. */
  lemma StoreIsFaithful(env: Env, start: World, run: seq<Label>, id: Identity)
    requires Initial(env, start) && Legal(env, start, run)
    requires id in Run(env, start, run).store
    ensures var w := Run(env, start, run);
            && w.store[id].id == id
            && exists i, x :: 0 <= i < |w.feed| && x in Entries(env.stream, w.feed[i])
                           && NormalizeEntry(env.stream, x, env.binding) == Kept(w.store[id])
  {
    InitialInv(env, start);
    RunKeeps(env, start, run);
    var w := Run(env, start, run);
    assert InFeed(env, w.feed, w.store[id]);
  }

  ghost predicate NotBefore(a: Option<int>, b: Option<int>) {
    a.Some? ==> b.Some? && a.value <= b.value
  }

  ghost predicate Extends(v: World, w: World) {
    && w.clock <= v.clock
    && w.feed <= v.feed
    && (forall id :: id in w.store ==> id in v.store && v.store[id] == w.store[id])
    && (w.cursor.backfillComplete ==> v.cursor.backfillComplete)
    && NotBefore(w.cursor.syncedThrough, v.cursor.syncedThrough)
  }

  lemma StepExtends(env: Env, w: World, l: Label)
    requires Inv(env, w) && Enabled(env, w, l)
    ensures Extends(Apply(env, w, l), w)
  {
  }

  /** Progress is never taken back: the claim, the completion flag and the store only grow. */
  lemma {:induction false} NeverGoesBack(env: Env, w: World, run: seq<Label>)
    requires Inv(env, w) && Legal(env, w, run)
    ensures Extends(Run(env, w, run), w)
    decreases |run|
  {
    if run != [] {
      StepExtends(env, w, run[0]);
      StepKeeps(env, w, run[0]);
      NeverGoesBack(env, Apply(env, w, run[0]), run[1..]);
    }
  }

  /** Where the running sweep began: the tick whose clock it claims, holding the newest page of that moment. */
  ghost predicate BeganAt(env: Env, start: World, run: seq<Label>, n: nat, clock: int, head: nat) {
    && n <= |run| && Legal(env, start, run[..n])
    && var u := Run(env, start, run[..n]);
      u.worker.Fetched? && u.worker.state.page.None? && u.worker.now == clock && head == |u.feed|
  }

  ghost predicate InMemory(w: World) {
    (w.worker.Fetched? || w.worker.Saving?) && w.worker.state.page.None?
  }

  lemma {:induction false} SweepOrigin(env: Env, start: World, run: seq<Label>)
    requires Initial(env, start) && Legal(env, start, run)
    ensures var w := Run(env, start, run);
            && (w.cursor.page.Some? ==> exists n :: BeganAt(env, start, run, n, w.sweepClock, w.head))
            && (InMemory(w) ==> exists n :: BeganAt(env, start, run, n, w.worker.now, w.worker.page.hi))
    decreases |run|
  {
    if run == [] { return; }
    var m := |run| - 1;
    var before := run[..m];
    RunPrefix(env, start, run, m);
    assert run[m..] == [run[m]];
    assert [run[m]][1..] == [];
    SweepOrigin(env, start, before);
    InitialInv(env, start);
    RunKeeps(env, start, before);
    var u, w := Run(env, start, before), Run(env, start, run);
    assert w == Apply(env, u, run[m]);
    forall n: nat, c, h: nat | BeganAt(env, start, before, n, c, h) ensures BeganAt(env, start, run, n, c, h) {
      assert before[..n] == run[..n];
    }
    if run[m].Fetch? && u.worker.state.page.None? {
      assert run[..|run|] == run;
      assert BeganAt(env, start, run, |run|, w.worker.now, w.worker.page.hi);
    }
  }

  /**
   A claim names the start of the sweep that earned it: it is the clock of the tick that fetched the
   sweep's newest page, however many ticks later the sweep ended, and by then every row the feed held
   at that fetch is stored.
   */
  lemma ClaimIsSweepStart(env: Env, start: World, run: seq<Label>, l: Label)
    requires Initial(env, start) && Legal(env, start, run) && Enabled(env, Run(env, start, run), l)
    requires var w := Run(env, start, run); Apply(env, w, l).cursor.syncedThrough != w.cursor.syncedThrough
    ensures var v := Apply(env, Run(env, start, run), l);
            && v.cursor.syncedThrough.Some?
            && exists n, head: nat :: BeganAt(env, start, run, n, v.cursor.syncedThrough.value, head)
                 && head <= |v.feed| && forall i :: 0 <= i < head ==> Recorded(env, v, i)
  {
    InitialInv(env, start);
    RunKeeps(env, start, run);
    SweepOrigin(env, start, run);
    var w := Run(env, start, run);
    var v := Apply(env, w, l);
    var k := w.worker;
    FinishStoresBelowHead(env, w);
    assert RowsStored(env, v.store, v.feed, 0, v.head);
    var n :| BeganAt(env, start, run, n, v.cursor.syncedThrough.value, v.head);
    forall i | 0 <= i < v.head ensures Recorded(env, v, i) {
      assert RowStored(env, v.store, v.feed[i]);
      forall x | x in Entries(env.stream, v.feed[i]) ensures EntryStored(env, v.store, x) {}
    }
  }

  // ---- Progress ----

  /** A page that names a further page is not empty. */
  ghost predicate Progressing(l: Label) { l.Fetch? && l.page.np.Some? ==> l.page.lo < l.page.hi }

  /** Every token asked for in this tick lies above the position, or was the newest page. */
  ghost predicate TokenInv(w: World) {
    var k := w.worker;
    && (k.Ready? ==> forall v :: v in k.visited ==> k.state.page.Some? && (v.Some? ==> k.state.page.value < v.value))
    && (k.Fetched? || k.Saving? ==>
          && (forall v :: v in k.visited && v != k.state.page ==> k.state.page.Some? && (v.Some? ==> k.state.page.value < v.value))
          && (k.page.np.Some? ==> k.page.np.value == k.page.lo < k.page.hi)
          && (k.state.page.Some? ==> k.page.hi == k.state.page.value))
  }

  lemma TokenStep(env: Env, w: World, l: Label)
    requires TokenInv(w) && Enabled(env, w, l) && Progressing(l)
    ensures TokenInv(Apply(env, w, l))
  {
  }

  /** Against a venue whose pages progress, the guard against a repeated token never fires: the worker can always ask for its page. */
  lemma {:induction false} NoFalseAlarm(env: Env, w: World, run: seq<Label>)
    requires TokenInv(w) && Legal(env, w, run) && forall l :: l in run ==> Progressing(l)
    ensures var v := Run(env, w, run); TokenInv(v) && (v.worker.Ready? ==> v.worker.state.page !in v.worker.visited)
    decreases |run|
  {
    if run != [] {
      assert Progressing(run[0]);
      TokenStep(env, w, run[0]);
      NoFalseAlarm(env, Apply(env, w, run[0]), run[1..]);
    }
  }

  /** The rows a sweep still has below it. */
  ghost function Below(w: World): nat { if w.cursor.page.Some? then w.cursor.page.value else |w.feed| }

  /** Each saved page ends the sweep or leaves fewer rows below it, so that each further page is lower. */
  lemma SweepAdvances(env: Env, w: World)
    requires Inv(env, w) && TokenInv(w) && Enabled(env, w, SaveCursor)
    ensures var v := Apply(env, w, SaveCursor);
            if Finished(env, w.worker.state, w.worker.page) then v.cursor.page.None? && v.cursor.backfillComplete
            else v.cursor.page.Some? && Below(v) < Below(w)
  {
  }

  /** The page ends its sweep. */
  ghost predicate EndsSweep(env: Env, w: World, l: Label) { l.SaveCursor? && w.worker.Saving? && Finished(env, w.worker.state, w.worker.page) }

  ghost predicate SweepOpen(env: Env, w: World, run: seq<Label>)
    requires Legal(env, w, run)
    decreases |run|
  {
    run != [] ==> !EndsSweep(env, w, run[0]) && SweepOpen(env, Apply(env, w, run[0]), run[1..])
  }

  /** How many pages a run saves. */
  ghost function PagesSaved(run: seq<Label>): nat { if run == [] then 0 else (if run[0].SaveCursor? then 1 else 0) + PagesSaved(run[1..]) }

  lemma SweepStep(env: Env, w: World, l: Label)
    requires Inv(env, w) && TokenInv(w) && Enabled(env, w, l) && w.cursor.page.Some? && !EndsSweep(env, w, l)
    ensures var v := Apply(env, w, l); v.cursor.page.Some? && Below(v) + (if l.SaveCursor? then 1 else 0) <= Below(w)
  {
    if l.SaveCursor? { SweepAdvances(env, w); }
  }

  /**
   A sweep under way ends: over any ticks, stops and crashes, and however much the feed grows meanwhile, it saves
   no more pages without ending than it had rows below it.
   */
  lemma {:induction false} SweepEnds(env: Env, w: World, run: seq<Label>)
    requires Inv(env, w) && TokenInv(w) && Legal(env, w, run) && (forall l :: l in run ==> Progressing(l))
    requires w.cursor.page.Some? && SweepOpen(env, w, run)
    ensures var v := Run(env, w, run); v.cursor.page.Some? && PagesSaved(run) + Below(v) <= Below(w)
    decreases |run|
  {
    if run != [] {
      assert Progressing(run[0]);
      SweepStep(env, w, run[0]);
      StepKeeps(env, w, run[0]);
      TokenStep(env, w, run[0]);
      SweepEnds(env, Apply(env, w, run[0]), run[1..]);
    }
  }

  // ---- The exact environment the claim needs ----

  /** The claim read literally: stamped at or before `syncedThrough` means stored. */
  ghost predicate HonestlyStamped(env: Env, w: World) {
    w.cursor.syncedThrough.Some? ==> Honest(env, w, w.cursor.syncedThrough.value, 0)
  }

  ghost predicate AlwaysHonest(lag: int) {
    forall env: Env, w: World, run: seq<Label> :: env.lag == lag && Initial(env, w) && Legal(env, w, run) ==> HonestlyStamped(env, Run(env, w, run))
  }

  /** The literal claim holds of every run exactly when the venue publishes a record by its own stamp. */
  lemma HonestIffVisibleByStamp(lag: int)
    ensures AlwaysHonest(lag) <==> lag <= 0
  {
    if lag <= 0 {
      forall env: Env, w: World, run: seq<Label> | env.lag == lag && Initial(env, w) && Legal(env, w, run)
        ensures HonestlyStamped(env, Run(env, w, run))
      {
        CoverageHonest(env, w, run);
      }
    } else {
      LatePublication(lag);
    }
  }

  /** A record stamped at the sweep's own start, published after the sweep read the feed, is claimed but missing. */
  lemma LatePublication(lag: int)
    requires lag > 0
    ensures !AlwaysHonest(lag)
  {
    var raw := RawEvent(Stamp(10, Some(1), Some(1), Some(1), None), 7, 1, None, None, None, None, 0, 5, None, None, true);
    var row := Row(raw, None);
    var binding := Binding(7, 1, 10, None);
    var event := NormalizeEntry(Fills, raw, binding).event;
    var env := Env(Fills, binding, lag, _ => event);
    var w0 := Clean([], 10);
    var parsed := OnePageParsed(env, [], 10);
    RunSnoc(env, w0, parsed, SaveCursor);
    var v := Run(env, w0, parsed + [SaveCursor]);
    assert Entries(Fills, row) == [raw];
    RunSnoc(env, w0, parsed + [SaveCursor], Append(row));
    LateIsMissed(env, Apply(env, v, Append(row)), row, raw);
  }

  lemma LateIsMissed(env: Env, w: World, row: Row, raw: RawEvent)
    requires w.feed == [row] && w.store == map[] && Entries(env.stream, row) == [raw] && NormalizeEntry(env.stream, raw, env.binding).Kept?
    requires w.cursor.syncedThrough == Some(raw.at.t)
    ensures !HonestlyStamped(env, w)
  {
    assert w.feed[0] == row && raw in Entries(env.stream, w.feed[0]);
  }

  /** Nothing collected, and a feed already there. */
  function Clean(feed: seq<Row>, clock: int): World { World(feed, clock, map[], FRESH_CURSOR, Idle, 0, 0, 0) }

  /** A tick that gets the whole feed as one page, up to the events it has to save. */
  lemma OnePageParsed(env: Env, feed: seq<Row>, clock: int) returns (run: seq<Label>)
    requires Initial(env, Clean(feed, clock)) && KeysStable(env, feed) && NormalizeHistoryEvents(env.stream, NewestFirst(feed, 0, |feed|), env.binding).Some?
    ensures Legal(env, Clean(feed, clock), run)
    ensures var page := Page(NewestFirst(feed, 0, |feed|), None, 0, |feed|);
            Run(env, Clean(feed, clock), run)
            == Clean(feed, clock).(worker := Saving(clock, FRESH_CURSOR, {None}, page, NormalizeHistoryEvents(env.stream, page.d, env.binding).value))
  {
    var w0, page := Clean(feed, clock), Page(NewestFirst(feed, 0, |feed|), None, 0, |feed|);
    var w1 := Apply(env, w0, StartTick);
    var w2 := Apply(env, w1, Fetch(page));
    assert w2.worker == Fetched(clock, FRESH_CURSOR, {None}, page) && NewRows(env, FRESH_CURSOR, page) == page.d;
    var w3 := Apply(env, w2, Parse);
    run := [StartTick, Fetch(page), Parse];
    LegalSteps(env, [w0, w1, w2, w3], run);
  }

  lemma {:induction false} LegalSteps(env: Env, worlds: seq<World>, run: seq<Label>)
    requires |worlds| == |run| + 1
    requires forall i :: 0 <= i < |run| ==> Enabled(env, worlds[i], run[i]) && worlds[i + 1] == Apply(env, worlds[i], run[i])
    ensures Legal(env, worlds[0], run) && Run(env, worlds[0], run) == worlds[|run|]
    decreases |run|
  {
    if run != [] {
      LegalSteps(env, worlds[1..], run[1..]);
    }
  }
}

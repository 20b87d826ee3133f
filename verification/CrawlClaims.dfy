// What the claim and the anchor are at any moment, told from the history of the run alone: which tick read the
// newest page of which sweep, and whether that sweep ended.
module CrawlClaims {
  import opened Options
  import opened PerplHistory
  import opened Crawl
  import opened CrawlTheorems

  /** A newest page: the run's prefix that ends with its fetch, the clock when that tick began, and the page. */
  datatype Newest = Newest(at: nat, clock: int, page: Page)

  /** The clock when the last tick began, and the newest page fetched last. */
  datatype History = History(tick: int, newest: Option<Newest>)

  ghost function HistoryOf(env: Env, start: World, run: seq<Label>): History
    requires Legal(env, start, run)
    decreases |run|
  {
    if run == [] then History(start.clock, None)
    else
      var m := |run| - 1;
      RunPrefix(env, start, run, m);
      Heard(HistoryOf(env, start, run[..m]), Run(env, start, run[..m]), run[m], |run|)
  }

  ghost function Heard(h: History, u: World, l: Label, at: nat): History {
    match l
    case StartTick => h.(tick := u.clock)
    case Fetch(page) => if u.worker.Ready? && u.worker.state.page.None? then h.(newest := Some(Newest(at, h.tick, page))) else h
    case _ => h
  }

  lemma HistorySnoc(env: Env, start: World, run: seq<Label>, l: Label)
    requires Legal(env, start, run) && Enabled(env, Run(env, start, run), l)
    ensures Legal(env, start, run + [l]) && Run(env, start, run + [l]) == Apply(env, Run(env, start, run), l)
    ensures HistoryOf(env, start, run + [l]) == Heard(HistoryOf(env, start, run), Run(env, start, run), l, |run| + 1)
  {
    RunSnoc(env, start, run, l);
    assert (run + [l])[..|run|] == run;
  }

  /** The key of a page's newest row, if it has a row. */
  ghost function TopKey(env: Env, page: Page): Option<Identity> { if page.d == [] then None else RowKey(env, page.d[0]) }

  /** A tick counts by the clock it began at, and an open sweep remembers its newest page. */
  ghost predicate Remembers(env: Env, h: History, w: World) {
    && (!w.worker.Idle? ==> w.worker.now == h.tick)
    && (InMemory(w) ==> h.newest.Some? && h.newest.value.page == w.worker.page && h.newest.value.clock == w.worker.now)
    && (w.cursor.page.Some? ==>
          h.newest.Some? && w.cursor.sweepStartedAt == Some(h.newest.value.clock) && w.cursor.pendingHead == TopKey(env, h.newest.value.page)
          && KeysStable(env, h.newest.value.page.d))
  }

  lemma RemembersStep(env: Env, h: History, w: World, l: Label, at: nat)
    requires Inv(env, w) && Remembers(env, h, w) && Enabled(env, w, l)
    ensures Remembers(env, Heard(h, w, l, at), Apply(env, w, l))
  {
  }

  lemma {:induction false} RemembersRun(env: Env, start: World, run: seq<Label>)
    requires Initial(env, start) && Legal(env, start, run)
    ensures Inv(env, Run(env, start, run)) && Remembers(env, HistoryOf(env, start, run), Run(env, start, run))
    decreases |run|
  {
    InitialInv(env, start);
    RunKeeps(env, start, run);
    if run != [] {
      var m := |run| - 1;
      RunPrefix(env, start, run, m);
      RemembersRun(env, start, run[..m]);
      assert run == run[..m] + [run[m]];
      assert run[m..] == [run[m]] && [run[m]][1..] == [];
      RemembersStep(env, HistoryOf(env, start, run[..m]), Run(env, start, run[..m]), run[m], |run|);
    }
  }

  lemma {:induction false} NewestIsFetch(env: Env, start: World, run: seq<Label>)
    requires Initial(env, start) && Legal(env, start, run) && HistoryOf(env, start, run).newest.Some?
    ensures var n := HistoryOf(env, start, run).newest.value;
            exists head: nat :: BeganAt(env, start, run, n.at, n.clock, head)
    decreases |run|
  {
    var m := |run| - 1;
    RunPrefix(env, start, run, m);
    var before := run[..m];
    var n := HistoryOf(env, start, run).newest.value;
    assert run == before + [run[m]] && run[m..] == [run[m]] && [run[m]][1..] == [];
    RemembersRun(env, start, before);
    if n.at == |run| && run[m].Fetch? && Run(env, start, before).worker.state.page.None? {
      assert run[..|run|] == run;
      assert BeganAt(env, start, run, |run|, n.clock, |Run(env, start, run).feed|);
    } else {
      NewestIsFetch(env, start, before);
      var head: nat :| BeganAt(env, start, before, n.at, n.clock, head);
      assert before[..n.at] == run[..n.at];
      assert BeganAt(env, start, run, n.at, n.clock, head);
    }
  }

  // ---- When a page ends the sweep ----

  /** The page shows the row the last sweep ended at, or there is no older page. */
  ghost predicate LastPage(env: Env, anchor: Option<Identity>, page: Page) {
    page.np.None? || (anchor.Some? && exists i :: 0 <= i < |page.d| && RowKey(env, page.d[i]) == anchor)
  }

  /** The sweep ends exactly with such a page, and only the rows above that row are read from it. */
  lemma EndsExactly(env: Env, w: World)
    requires Inv(env, w) && Enabled(env, w, SaveCursor)
    ensures EndsSweep(env, w, SaveCursor) <==> LastPage(env, w.worker.state.anchor, w.worker.page)
    ensures var v := Apply(env, w, SaveCursor);
            && (v.cursor.page.None? <==> EndsSweep(env, w, SaveCursor))
            && (v.cursor.page.Some? ==> v.cursor.page == w.worker.page.np)
  {
  }

  lemma ReadsAboveAnchor(env: Env, state: Cursor, page: Page)
    ensures var n := |NewRows(env, state, page)|;
            && n <= |page.d| && NewRows(env, state, page) == page.d[..n]
            && (forall i :: 0 <= i < n && state.anchor.Some? ==> RowKey(env, page.d[i]) != state.anchor)
            && (n < |page.d| ==> state.anchor.Some? && RowKey(env, page.d[n]) == state.anchor)
  {
    FirstIsFirst(env, page.d, state.anchor, 0);
  }

  lemma {:induction false} FirstIsFirst(env: Env, rows: seq<Row>, key: Option<Identity>, from: nat)
    requires from <= |rows|
    ensures var at := FirstIndex(env, rows, key, from);
            forall i :: from <= i < (if at < 0 then |rows| else at) ==> RowKey(env, rows[i]) != key
    decreases |rows| - from
  {
    if from < |rows| && RowKey(env, rows[from]) != key { FirstIsFirst(env, rows, key, from + 1); }
  }

  // ---- The claim ----

  /** The claim and the anchor are those of the sweep that read this newest page. */
  ghost predicate ClaimsSweep(env: Env, n: Newest, before: Cursor, after: Cursor) {
    && after.syncedThrough == Some(n.clock) && after.backfillComplete
    && after.anchor == (if n.page.d != [] then RowKey(env, n.page.d[0]) else before.anchor)
  }

  lemma SweepEndMoves(env: Env, h: History, w: World, l: Label)
    requires Inv(env, w) && Remembers(env, h, w) && Enabled(env, w, l) && EndsSweep(env, w, l)
    ensures h.newest.Some? && ClaimsSweep(env, h.newest.value, w.cursor, Apply(env, w, l).cursor)
  {
  }

  lemma OthersLeaveClaim(env: Env, w: World, l: Label)
    requires Inv(env, w) && Enabled(env, w, l) && !EndsSweep(env, w, l)
    ensures var v := Apply(env, w, l); v.cursor.syncedThrough == w.cursor.syncedThrough && v.cursor.anchor == w.cursor.anchor
  {
  }

  /**
   Over every run: each label that ends a sweep, the first or a later one, leaves the claim at the clock of the tick
   that read this sweep's newest page, and the anchor at the newest row of that page, if it has one. No other label
   moves either.
   */
  lemma SweepEndClaims(env: Env, start: World, run: seq<Label>, l: Label)
    requires Initial(env, start) && Legal(env, start, run) && Enabled(env, Run(env, start, run), l)
    ensures var w, h := Run(env, start, run), HistoryOf(env, start, run);
            var v := Apply(env, w, l);
            if EndsSweep(env, w, l) then
              && h.newest.Some? && ClaimsSweep(env, h.newest.value, w.cursor, v.cursor)
              && exists head: nat :: BeganAt(env, start, run, h.newest.value.at, h.newest.value.clock, head)
            else v.cursor.syncedThrough == w.cursor.syncedThrough && v.cursor.anchor == w.cursor.anchor
  {
    RemembersRun(env, start, run);
    var w, h := Run(env, start, run), HistoryOf(env, start, run);
    if EndsSweep(env, w, l) {
      SweepEndMoves(env, h, w, l);
      NewestIsFetch(env, start, run);
    } else {
      OthersLeaveClaim(env, w, l);
    }
  }
}

// Joining the crawl's claim to the arithmetic: what a reported funding movement says about the venue's
// true history, not merely about the part of it stored so far.
module AccountingHistory {
  import opened Options
  import opened PerplHistory
  import opened AccountingMath
  import opened AccountingDaily
  import opened Crawl
  import opened CrawlTheorems

  // ---- The claim of several streams together ----

  function Claims(cursors: seq<(Stream, Cursor)>, streams: set<Stream>): seq<Cursor> {
    if cursors == [] then []
    else (if cursors[0].0 in streams then [cursors[0].1] else []) + Claims(cursors[1..], streams)
  }

  predicate Complete(c: Cursor) { c.backfillComplete && c.syncedThrough.Some? }

  function Moments(cs: seq<Cursor>): (ts: seq<int>)
    requires forall c :: c in cs ==> Complete(c)
    ensures |ts| == |cs| && forall i :: 0 <= i < |cs| ==> Some(ts[i]) == cs[i].syncedThrough
  {
    if cs == [] then [] else assert Complete(cs[0]); [cs[0].syncedThrough.value] + Moments(cs[1..])
  }

  /** The earliest claim among the streams, or nothing while one of them is unfinished or unread. */
  function Through(cursors: seq<(Stream, Cursor)>, streams: set<Stream>): Option<int> {
    var selected := Claims(cursors, streams);
    if |selected| != |streams| || exists c :: c in selected && !Complete(c) then None
    else
      var ts := Sort(Moments(selected), (t: int) => t);
      if ts == [] then None else Some(ts[0])
  }

  lemma ThroughIsLeast(cursors: seq<(Stream, Cursor)>, streams: set<Stream>, i: nat)
    requires Through(cursors, streams).Some? && i < |Claims(cursors, streams)|
    ensures Complete(Claims(cursors, streams)[i])
    ensures Through(cursors, streams).value <= Claims(cursors, streams)[i].syncedThrough.value
  {
    var selected := Claims(cursors, streams);
    var id := (t: int) => t;
    var ts := Sort(Moments(selected), id);
    SortSorts(Moments(selected), id);
    var t := Moments(selected)[i];
    assert t in multiset(Moments(selected));
    assert t in multiset(ts);
    var j :| 0 <= j < |ts| && ts[j] == t;
    assert id(ts[0]) <= id(ts[j]);
  }

  lemma {:induction false} ClaimsAre(cursors: seq<(Stream, Cursor)>, streams: set<Stream>, c: Cursor)
    ensures c in Claims(cursors, streams) <==> exists i :: 0 <= i < |cursors| && cursors[i].0 in streams && cursors[i].1 == c
  {
    if cursors != [] {
      ClaimsAre(cursors[1..], streams, c);
      if exists i :: 0 <= i < |cursors| && cursors[i].0 in streams && cursors[i].1 == c {
        var i :| 0 <= i < |cursors| && cursors[i].0 in streams && cursors[i].1 == c;
        assert i > 0 ==> cursors[1..][i - 1] == cursors[i];
      }
      if c in Claims(cursors[1..], streams) {
        var i :| 0 <= i < |cursors[1..]| && cursors[1..][i].0 in streams && cursors[1..][i].1 == c;
        assert cursors[i + 1] == cursors[1..][i];
      }
    }
  }

  /** One of the streams claims exactly this much, and each at least as much. */
  ghost predicate LeastClaim(cursors: seq<(Stream, Cursor)>, streams: set<Stream>, t: int) {
    && (exists i :: 0 <= i < |cursors| && cursors[i].0 in streams && cursors[i].1.syncedThrough == Some(t))
    && forall i :: 0 <= i < |cursors| && cursors[i].0 in streams ==>
         cursors[i].1.backfillComplete && cursors[i].1.syncedThrough.Some? && t <= cursors[i].1.syncedThrough.value
  }

  /** There is a joint claim exactly when each stream was read once and has finished its backfill; it is the least of theirs. */
  lemma ThroughExactly(cursors: seq<(Stream, Cursor)>, streams: set<Stream>)
    requires streams != {}
    ensures Through(cursors, streams).Some? <==>
              |Claims(cursors, streams)| == |streams| && forall c :: c in Claims(cursors, streams) ==> c.backfillComplete && c.syncedThrough.Some?
    ensures Through(cursors, streams).Some? ==> LeastClaim(cursors, streams, Through(cursors, streams).value)
  {
    var selected := Claims(cursors, streams);
    if |selected| == |streams| && forall c :: c in selected ==> Complete(c) {
      SortedFirst(Moments(selected));
      LeastMoment(selected, Through(cursors, streams).value);
      LeastOfCursors(cursors, streams, Through(cursors, streams).value);
    }
  }

  lemma LeastOfCursors(cursors: seq<(Stream, Cursor)>, streams: set<Stream>, t: int)
    requires forall c :: c in Claims(cursors, streams) ==> Complete(c) && t <= c.syncedThrough.value
    requires exists c :: c in Claims(cursors, streams) && c.syncedThrough == Some(t)
    ensures LeastClaim(cursors, streams, t)
  {
    var c :| c in Claims(cursors, streams) && c.syncedThrough == Some(t);
    ClaimsAre(cursors, streams, c);
    forall i | 0 <= i < |cursors| && cursors[i].0 in streams ensures Complete(cursors[i].1) && t <= cursors[i].1.syncedThrough.value {
      ClaimsAre(cursors, streams, cursors[i].1);
    }
  }

  lemma SortedFirst(ts: seq<int>)
    requires ts != []
    ensures var s := Sort(ts, (t: int) => t); s != [] && s[0] in ts && forall t :: t in ts ==> s[0] <= t
  {
    var id := (t: int) => t;
    var s := Sort(ts, id);
    SortSorts(ts, id);
    assert s[0] in multiset(s);
    forall t | t in ts ensures s[0] <= t {
      assert t in multiset(s);
      var j :| 0 <= j < |s| && s[j] == t;
      assert id(s[0]) <= id(s[j]);
    }
  }

  lemma LeastMoment(selected: seq<Cursor>, t: int)
    requires (forall c :: c in selected ==> Complete(c)) && t in Moments(selected) && forall m :: m in Moments(selected) ==> t <= m
    ensures exists c :: c in selected && c.syncedThrough == Some(t)
    ensures forall c :: c in selected ==> t <= c.syncedThrough.value
  {
    var j :| 0 <= j < |selected| && Moments(selected)[j] == t;
    assert selected[j] in selected;
    forall c | c in selected ensures t <= c.syncedThrough.value {
      var i :| 0 <= i < |selected| && selected[i] == c;
      assert Moments(selected)[i] in Moments(selected);
    }
  }

  // ---- One stream, read at two moments ----

  /**
   A whole crawl, and the two moments of it at which its cursor and its events are read. The source asks for
   both at once, so neither need come first.
   */
  datatype StreamRun = StreamRun(env: Env, start: World, run: seq<Label>, cursorAt: nat, eventsAt: nat)

  ghost predicate Happens(r: StreamRun) {
    Initial(r.env, r.start) && Legal(r.env, r.start, r.run) && r.cursorAt <= |r.run| && r.eventsAt <= |r.run|
  }

  /** The state after n labels. */
  ghost function After(r: StreamRun, n: nat): World
    requires Happens(r) && n <= |r.run|
  {
    RunPrefix(r.env, r.start, r.run, n);
    Run(r.env, r.start, r.run[..n])
  }

  ghost function AtCursor(r: StreamRun): World
    requires Happens(r)
  {
    After(r, r.cursorAt)
  }

  ghost function AtEvents(r: StreamRun): World
    requires Happens(r)
  {
    After(r, r.eventsAt)
  }

  ghost function Eventually(r: StreamRun): World
    requires Happens(r)
  {
    Run(r.env, r.start, r.run)
  }

  /** A cursor is saved after the events were read and before the cursor is. */
  ghost predicate SavedBetween(r: StreamRun) {
    exists k :: r.eventsAt <= k < r.cursorAt && k < |r.run| && r.run[k].SaveCursor?
  }

  lemma {:induction false} OnlySavesMoveCursor(env: Env, w: World, run: seq<Label>)
    requires Legal(env, w, run) && forall k :: 0 <= k < |run| ==> !run[k].SaveCursor?
    ensures Run(env, w, run).cursor == w.cursor
    decreases |run|
  {
    if run != [] {
      assert !run[0].SaveCursor?;
      OnlySavesMoveCursor(env, Apply(env, w, run[0]), run[1..]);
    }
  }

  /** From one moment of a crawl to a later one. */
  lemma Onward(r: StreamRun, m: nat, n: nat)
    requires Happens(r) && m <= n <= |r.run|
    ensures Legal(r.env, After(r, m), r.run[m..n]) && Run(r.env, After(r, m), r.run[m..n]) == After(r, n)
    ensures Inv(r.env, After(r, m))
  {
    RunPrefix(r.env, r.start, r.run, n);
    RunPrefix(r.env, r.start, r.run[..n], m);
    assert r.run[..n][..m] == r.run[..m] && r.run[..n][m..] == r.run[m..n];
    InitialInv(r.env, r.start);
    RunKeeps(r.env, r.start, r.run[..m]);
  }

  lemma AfterAll(r: StreamRun)
    requires Happens(r)
    ensures After(r, |r.run|) == Eventually(r)
  {
    assert r.run[..|r.run|] == r.run;
  }

  /** The moment whose claim the cursor read makes, no later than the moment the events are read. */
  ghost function ClaimAt(r: StreamRun): nat { if r.cursorAt < r.eventsAt then r.cursorAt else r.eventsAt }

  lemma ClaimHeld(r: StreamRun)
    requires Happens(r) && !SavedBetween(r)
    ensures After(r, ClaimAt(r)).cursor == AtCursor(r).cursor
  {
    if r.eventsAt < r.cursorAt {
      Onward(r, r.eventsAt, r.cursorAt);
      forall k | 0 <= k < |r.run[r.eventsAt..r.cursorAt]| ensures !r.run[r.eventsAt..r.cursorAt][k].SaveCursor? {
        assert r.run[r.eventsAt..r.cursorAt][k] == r.run[r.eventsAt + k];
      }
      OnlySavesMoveCursor(r.env, AtEvents(r), r.run[r.eventsAt..r.cursorAt]);
    }
  }

  /** What the venue reports for the bound account, whatever floor the collector was given. */
  ghost predicate TrueEvent(env: Env, feed: seq<Row>, e: Event) {
    exists i, x :: 0 <= i < |feed| && x in Entries(env.stream, feed[i])
                   && NormalizeEntry(env.stream, x, env.binding.(historyFrom := None)) == Kept(e)
  }

  ghost predicate StoredEvent(w: World, e: Event) { e.id in w.store && w.store[e.id] == e }

  lemma {:induction false} ArrivalsAreLate(env: Env, w: World, run: seq<Label>)
    requires Legal(env, w, run)
    ensures w.feed <= Run(env, w, run).feed && w.clock <= Run(env, w, run).clock
    ensures LateFrom(env, Run(env, w, run).feed, |w.feed|, w.clock)
    decreases |run|
  {
    if run != [] {
      var v := Apply(env, w, run[0]);
      ArrivalsAreLate(env, v, run[1..]);
      var z := Run(env, w, run);
      forall i | |w.feed| <= i < |z.feed| ensures RowLate(env, z.feed[i], w.clock) {
        if i < |v.feed| {
          assert z.feed[i] == v.feed[i];
        } else {
          assert RowLate(env, z.feed[i], v.clock);
        }
      }
    }
  }

  ghost predicate AfterFloor(binding: Binding, t: int) { binding.historyFrom.None? || binding.historyFrom.value <= t }

  /** Any true event the claim covers, lag allowed for, is among the events read, whichever was read first. */
  lemma TrueIsStored(r: StreamRun, e: Event)
    requires Happens(r) && !SavedBetween(r)
    requires var c := AtCursor(r).cursor; c.syncedThrough.Some? && e.at + r.env.lag <= c.syncedThrough.value
    requires AfterFloor(r.env.binding, e.at) && TrueEvent(r.env, Eventually(r).feed, e)
    ensures StoredEvent(AtEvents(r), e)
  {
    var env, w, z := r.env, After(r, ClaimAt(r)), Eventually(r);
    ClaimHeld(r);
    Onward(r, ClaimAt(r), r.eventsAt);
    Onward(r, ClaimAt(r), |r.run|);
    AfterAll(r);
    var i, x :| 0 <= i < |z.feed| && x in Entries(env.stream, z.feed[i])
                && NormalizeEntry(env.stream, x, env.binding.(historyFrom := None)) == Kept(e);
    assert NormalizeEntry(env.stream, x, env.binding) == Kept(e);
    NeverGoesBack(env, w, r.run[ClaimAt(r)..r.eventsAt]);
    ArrivalsAreLate(env, w, r.run[ClaimAt(r)..|r.run|]);
    assert RowLate(env, z.feed[i], w.clock) ==> x.at.t + env.lag > w.clock;
    assert z.feed[i] == w.feed[i];
    assert EntryStored(env, w.store, x);
  }

  lemma StoredIsTrueEvent(r: StreamRun, e: Event)
    requires Happens(r) && StoredEvent(AtEvents(r), e)
    ensures TrueEvent(r.env, Eventually(r).feed, e) && AfterFloor(r.env.binding, e.at)
  {
    var env, v, z := r.env, AtEvents(r), Eventually(r);
    Onward(r, r.eventsAt, |r.run|);
    AfterAll(r);
    assert InFeed(env, v.feed, v.store[e.id]);
    var i, x :| 0 <= i < |v.feed| && x in Entries(env.stream, v.feed[i]) && NormalizeEntry(env.stream, x, env.binding) == Kept(e);
    ArrivalsAreLate(env, v, r.run[r.eventsAt..|r.run|]);
    assert z.feed[i] == v.feed[i];
    assert NormalizeEntry(env.stream, x, env.binding.(historyFrom := None)) == Kept(e);
  }

  // ---- A reading of the history ----

  ghost predicate NoDuplicates(events: seq<Event>) {
    forall i, j :: 0 <= i < j < |events| ==> events[i] != events[j]
  }

  /**
   Both funding streams, the events the store returned for a range, and an enumeration `truth` of the
   venue's events in one interval as it will ever stand.
   */
  datatype Reading = Reading(
    account: StreamRun, position: StreamRun, fills: set<Event>, lo: int, hi: int, events: seq<Event>,
    start: int, end: int, truth: seq<Event>, market: int)

  ghost predicate IsTrue(r: Reading, e: Event)
    requires Happens(r.account) && Happens(r.position)
  {
    TrueEvent(r.account.env, Eventually(r.account).feed, e) || TrueEvent(r.position.env, Eventually(r.position).feed, e)
  }

  ghost predicate IsStored(r: Reading, e: Event)
    requires Happens(r.account) && Happens(r.position)
  {
    StoredEvent(AtEvents(r.account), e) || StoredEvent(AtEvents(r.position), e)
  }

  /** Two records of one on-chain log carry one timestamp. */
  ghost predicate OneStampPerLog(r: Reading)
    requires Happens(r.account) && Happens(r.position)
  {
    forall e, f :: IsTrue(r, e) && IsTrue(r, f) && e.logKey == f.logKey ==> e.at == f.at
  }

  /** The surroundings: two live crawls of one account, events as stored, an honest enumeration of the truth. */
  ghost predicate Taken(r: Reading) {
    && Happens(r.account) && Happens(r.position)
    && r.account.env.stream.AccountHistory? && r.position.env.stream.PositionHistory?
    && r.account.env.binding == r.position.env.binding
    && OneStampPerLog(r)
    && (forall e :: e in r.fills ==> e.fundingRaw.None?)
    && NoDuplicates(r.events) && NoDuplicates(r.truth)
    && (forall e :: e in r.events <==> r.lo <= e.at <= r.hi && (IsStored(r, e) || e in r.fills))
    && (forall e :: e in r.truth <==> r.start < e.at <= r.end && IsTrue(r, e))
  }

  /** The joint claim of the two cursors as read. */
  ghost function FundingThrough(r: Reading): Option<int>
    requires Happens(r.account) && Happens(r.position)
  {
    Through([(AccountHistory, AtCursor(r.account).cursor), (PositionHistory, AtCursor(r.position).cursor)], {AccountHistory, PositionHistory})
  }

  /** The events were read from the interval's first instant to its last. */
  ghost predicate Ranged(r: Reading) { r.lo <= r.start + 1 && r.end <= r.hi }

  /** What `accountingDaily` asks of an interval: inside the range read, and claimed to its end. */
  ghost predicate Reportable(r: Reading)
    requires Taken(r)
  {
    Ranged(r) && FundingThrough(r).Some? && r.end <= FundingThrough(r).value
  }

  /** What it does not ask: the floor below the interval, the claim past its end by the lag, no cursor saved between the reads. */
  ghost predicate Sufficient(r: Reading)
    requires Taken(r)
  {
    && AfterFloor(r.account.env.binding, r.start + 1)
    && FundingThrough(r).Some?
    && r.end + r.account.env.lag <= FundingThrough(r).value && r.end + r.position.env.lag <= FundingThrough(r).value
    && !SavedBetween(r.account) && !SavedBetween(r.position)
  }

  ghost predicate Funds(e: Event, r: Reading) { e.fundingRaw.Some? && r.start < e.at <= r.end }

  lemma ClaimsBoth(r: Reading)
    requires Taken(r) && FundingThrough(r).Some?
    ensures var ca, cp, t := AtCursor(r.account).cursor, AtCursor(r.position).cursor, FundingThrough(r).value;
            ca.syncedThrough.Some? && t <= ca.syncedThrough.value && cp.syncedThrough.Some? && t <= cp.syncedThrough.value
  {
    var cursors := [(AccountHistory, AtCursor(r.account).cursor), (PositionHistory, AtCursor(r.position).cursor)];
    var streams := {AccountHistory, PositionHistory};
    assert cursors[1..] == [cursors[1]] && cursors[1..][1..] == [];
    assert Claims(cursors[1..], streams) == [cursors[1].1];
    assert Claims(cursors, streams) == [cursors[0].1, cursors[1].1];
    ThroughIsLeast(cursors, streams, 0);
    ThroughIsLeast(cursors, streams, 1);
  }

  lemma ReadIsTrue(r: Reading, e: Event)
    requires Taken(r) && Ranged(r) && Sufficient(r) && Funds(e, r)
    ensures e in r.events <==> e in r.truth
  {
    ClaimsBoth(r);
    if e in r.truth {
      if TrueEvent(r.account.env, Eventually(r.account).feed, e) {
        TrueIsStored(r.account, e);
      } else {
        TrueIsStored(r.position, e);
      }
    } else if e in r.events {
      StoredIsTrueIn(r, e);
    }
  }

  lemma StoredIsTrueIn(r: Reading, e: Event)
    requires Taken(r) && e in r.events && e.fundingRaw.Some?
    ensures IsTrue(r, e)
  {
    assert IsStored(r, e);
    if StoredEvent(AtEvents(r.account), e) {
      StoredIsTrueEvent(r.account, e);
    } else {
      StoredIsTrueEvent(r.position, e);
    }
  }

  /** Mirrors are matched alike among the events read and among the true ones. */
  lemma CountedAlike(r: Reading, e: Event)
    requires Taken(r) && Ranged(r) && Sufficient(r) && Funds(e, r) && e in r.truth
    ensures Counted(r.events, e, r.market) == Counted(r.truth, e, r.market)
  {
    forall p | Settles(p, e, r.market) ensures p in r.events <==> p in r.truth {
      if p in r.events {
        StoredIsTrueIn(r, p);
        assert p.at == e.at;
        ReadIsTrue(r, p);
      } else if p in r.truth {
        ReadIsTrue(r, p);
      }
    }
  }

  // ---- Equal sums ----

  ghost function CountedWithin(all: seq<Event>, events: seq<Event>, market: int, w: Window): seq<Event> {
    if events == [] then []
    else
      var m := |events| - 1;
      CountedWithin(all, events[..m], market, w) + (if Counted(all, events[m], market) && In(events[m].at, w) then [events[m]] else [])
  }

  lemma {:induction false} CountedWithinTotal(all: seq<Event>, events: seq<Event>, market: int, w: Window)
    ensures Total(CountedWithin(all, events, market, w), Funding, w) == CountedTotal(all, events, market, w)
  {
    if events != [] {
      var m := |events| - 1;
      CountedWithinTotal(all, events[..m], market, w);
      var last := if Counted(all, events[m], market) && In(events[m].at, w) then [events[m]] else [];
      TotalConcat(CountedWithin(all, events[..m], market, w), last, Funding, w);
      assert [events[m]][..0] == [];
    }
  }

  lemma {:induction false} CountedWithinMultiset(all: seq<Event>, events: seq<Event>, market: int, w: Window, e: Event)
    ensures multiset(CountedWithin(all, events, market, w))[e] == if Counted(all, e, market) && In(e.at, w) then multiset(events)[e] else 0
  {
    if events != [] {
      var m := |events| - 1;
      CountedWithinMultiset(all, events[..m], market, w, e);
      assert events == events[..m] + [events[m]];
    }
  }

  lemma {:induction false} OnceEach(events: seq<Event>, e: Event)
    requires NoDuplicates(events)
    ensures multiset(events)[e] == if e in events then 1 else 0
  {
    if events != [] {
      var m := |events| - 1;
      OnceEach(events[..m], e);
      assert events == events[..m] + [events[m]];
    }
  }

  ghost function Settled(events: seq<Event>, market: int, start: int, end: int): int {
    Total(ReconciledFunding(events, market), Funding, Between(start, end))
  }

  ghost predicate FigureTrue(r: Reading) {
    Settled(r.events, r.market, r.start, r.end) == Settled(r.truth, r.market, r.start, r.end)
  }

  /**
   End to end: the settled sum of an interval read whole, after the floor, claimed to its end and the lag, with no
   cursor saved between the two reads, is the reconciled funding of every event the venue will ever report for it.
   */
  lemma SettledIsTrue(r: Reading)
    requires Taken(r) && Ranged(r) && Sufficient(r)
    ensures FigureTrue(r)
  {
    var w := Between(r.start, r.end);
    var a, b := CountedWithin(r.events, r.events, r.market, w), CountedWithin(r.truth, r.truth, r.market, w);
    forall e ensures multiset(a)[e] == multiset(b)[e] {
      CountedWithinMultiset(r.events, r.events, r.market, w, e);
      CountedWithinMultiset(r.truth, r.truth, r.market, w, e);
      OnceEach(r.events, e);
      OnceEach(r.truth, e);
      if Funds(e, r) {
        ReadIsTrue(r, e);
        if e in r.truth { CountedAlike(r, e); }
      }
    }
    assert multiset(a) == multiset(b);
    TotalOrderFree(a, b, Funding, w);
    CountedWithinTotal(r.events, r.events, r.market, w);
    CountedWithinTotal(r.truth, r.truth, r.market, w);
    CountedTotalIsTotal(r.events, r.events, r.market, w);
    CountedTotalIsTotal(r.truth, r.truth, r.market, w);
  }

  /** The same for the rows themselves: each accepted interval contributes true settled funding plus the open change. */
  lemma AcceptedIntervalIsTrue(x: Inputs, r: Reading, obs: seq<Observation>, i: nat)
    requires 0 < i < |obs| && Accepted(x, obs, i) && x.marketId == Some(r.market)
    requires Taken(r) && x.events == r.events && r.lo <= x.from && x.to <= r.hi
    requires r.start == obs[i - 1].at && r.end == obs[i].at
    requires x.fundingThrough == FundingThrough(r) && Sufficient(r)
    ensures Delta(x, obs, i)
         == Dollars(Settled(r.truth, r.market, r.start, r.end)) + obs[i].openFundingUsd.value - obs[i - 1].openFundingUsd.value
  {
    SettledIsTrue(r);
  }

  // ---- Crawls with at most one record ----

  /** A payment or fill of one unit on account 7, stamped t. */
  function Payment(t: int): RawEvent {
    RawEvent(Stamp(t, Some(1), Some(1), Some(1), None), 7, 1, Some(10), Some(1), Some(8), None, 0, 1, Some(1), None, true)
  }

  function PaymentEvent(stream: Stream, t: int): Event {
    NormalizeEntry(stream, Payment(t), Binding(7, 1, 10, None)).event
  }

  function PaymentEnv(stream: Stream, t: int, historyFrom: Option<int>, lag: int): Env {
    Env(stream, Binding(7, 1, 10, historyFrom), lag, _ => PaymentEvent(stream, t))
  }

  function OneRow(t: int): seq<Row> { [Row(Payment(t), None)] }

  /** A crawl of the whole feed, of at most one row, at one clock. */
  lemma CrawlAll(env: Env, feed: seq<Row>, t: int, clock: int) returns (run: seq<Label>)
    requires env == PaymentEnv(env.stream, t, env.binding.historyFrom, env.lag) && (feed == [] || feed == OneRow(t))
    ensures var w := Clean(feed, clock);
            && Initial(env, w) && Legal(env, w, run) && run != []
            && var v := Run(env, w, run);
              && v.cursor.syncedThrough == Some(clock) && v.cursor.backfillComplete && v.feed == feed && v.clock == clock
              && (feed == [] || !AfterFloor(env.binding, t) ==> v.store == map[])
    ensures run[|run| - 1].SaveCursor?
  {
    var w := Clean(feed, clock);
    assert forall i, x :: 0 <= i < |feed| && x in Entries(env.stream, feed[i]) ==> x == Payment(t);
    assert NewestFirst(feed, 0, |feed|) == feed;
    OneBatch(env, feed, t);
    run := OnePageParsed(env, feed, clock);
    if NormalizeHistoryEvents(env.stream, feed, env.binding).value != [] {
      RunSnoc(env, w, run, SaveOne);
      run := run + [SaveOne];
    }
    run := PageEndsSweep(env, w, run);
  }

  /** The only page of a first sweep, its events saved: the claim is the clock of its tick. */
  lemma PageEndsSweep(env: Env, w: World, run: seq<Label>) returns (longer: seq<Label>)
    requires Legal(env, w, run)
    requires var k := Run(env, w, run).worker;
             k.Saving? && k.rest == [] && k.state == FRESH_CURSOR && k.page.np.None?
    ensures longer == run + [SaveCursor] && Legal(env, w, longer)
    ensures var u, v := Run(env, w, run), Run(env, w, longer);
            && v.cursor.syncedThrough == Some(u.worker.now) && v.cursor.backfillComplete
            && v.feed == u.feed && v.clock == u.clock && v.store == u.store
  {
    RunSnoc(env, w, run, SaveCursor);
    longer := run + [SaveCursor];
  }

  lemma OneBatch(env: Env, feed: seq<Row>, t: int)
    requires env == PaymentEnv(env.stream, t, env.binding.historyFrom, env.lag) && (feed == [] || feed == OneRow(t))
    ensures var batch := NormalizeHistoryEvents(env.stream, feed, env.binding);
            batch.Some? && |batch.value| <= 1 && (feed == [] || !AfterFloor(env.binding, t) ==> batch.value == [])
  {
    if feed != [] {
      assert feed[1..] == [] && AllEntries(env.stream, feed[1..]) == [];
      assert Entries(env.stream, feed[0]) == [Payment(t)];
      assert AllEntries(env.stream, feed) == [Payment(t)] + [] == [Payment(t)];
      assert [Payment(t)][1..] == [] && NormalizeEntries(env.stream, [Payment(t)][1..], env.binding) == Some([]);
    }
  }

  lemma OnlyPayment(env: Env, t: int, e: Event)
    requires env == PaymentEnv(env.stream, t, env.binding.historyFrom, env.lag)
    ensures TrueEvent(env, OneRow(t), e) <==> e == PaymentEvent(env.stream, t)
    ensures !TrueEvent(env, [], e)
  {
    var feed := OneRow(t);
    assert Entries(env.stream, feed[0]) == [Payment(t)];
    if e == PaymentEvent(env.stream, t) {
      assert Payment(t) in Entries(env.stream, feed[0]);
      assert NormalizeEntry(env.stream, Payment(t), env.binding.(historyFrom := None)) == Kept(e);
    }
  }

  // ---- Three ways to miss a record ----

  /** Below the floor; published after the claim; or read past: the cursor saved between the reads. */
  datatype Miss = Below | Late | ReadPast

  /** When the record stamped t is missed in this way although the stream claims `through`. */
  ghost predicate Missable(m: Miss, t: int, historyFrom: Option<int>, lag: int, through: int) {
    match m
    case Below => historyFrom.Some? && t < historyFrom.value
    case Late => t + lag > through
    case ReadPast => true
  }

  /** A stream that claims `through` and whose only record, stamped t, the events read lack. */
  lemma MissedBy(m: Miss, stream: Stream, t: int, historyFrom: Option<int>, lag: int, through: int) returns (r: StreamRun)
    requires Missable(m, t, historyFrom, lag, through)
    ensures OneRecord(r, stream, t, historyFrom, lag, through) && AtEvents(r).store == map[]
    ensures SavedBetween(r) ==> m.ReadPast?
  {
    var env := PaymentEnv(stream, t, historyFrom, lag);
    if m.Late? {
      var w, row := Clean([], through), Row(Payment(t), None);
      var run := CrawlAll(env, [], t, through);
      var v := Run(env, w, run);
      assert Entries(stream, row) == [Payment(t)];
      RunSnoc(env, w, run, Append(row));
      r := StreamRun(env, w, run + [Append(row)], |run|, |run|);
      assert (run + [Append(row)])[..|run|] == run;
    } else {
      var run := CrawlAll(env, OneRow(t), t, through);
      r := StreamRun(env, Clean(OneRow(t), through), run, |run|, if m.Below? then |run| else 0);
      assert run[..|run|] == run && run[..0] == [];
    }
  }

  /** A stream whose only record, stamped t, was there all along. */
  lemma Collected(stream: Stream, t: int, historyFrom: Option<int>, lag: int, through: int) returns (r: StreamRun)
    ensures OneRecord(r, stream, t, historyFrom, lag, through) && !SavedBetween(r)
  {
    var env := PaymentEnv(stream, t, historyFrom, lag);
    var run := CrawlAll(env, OneRow(t), t, through);
    r := StreamRun(env, Clean(OneRow(t), through), run, |run|, |run|);
    assert run[..|run|] == run;
  }

  /** A stream with nothing in it that claims `through`. */
  lemma NothingMissed(stream: Stream, t: int, historyFrom: Option<int>, lag: int, through: int) returns (r: StreamRun)
    ensures Happens(r) && r.env == PaymentEnv(stream, t, historyFrom, lag) && !SavedBetween(r)
    ensures AtEvents(r).store == map[] && Eventually(r).feed == []
    ensures AtCursor(r).cursor.syncedThrough == Some(through) && AtCursor(r).cursor.backfillComplete
  {
    var env := PaymentEnv(stream, t, historyFrom, lag);
    var run := CrawlAll(env, [], t, through);
    r := StreamRun(env, Clean([], through), run, |run|, |run|);
    assert run[..|run|] == run;
  }

  /** The stream's only record is stamped t, its cursor as read claims `through`. */
  ghost predicate OneRecord(r: StreamRun, stream: Stream, t: int, historyFrom: Option<int>, lag: int, through: int) {
    && Happens(r) && r.env == PaymentEnv(stream, t, historyFrom, lag) && Eventually(r).feed == OneRow(t)
    && AtCursor(r).cursor.syncedThrough == Some(through) && AtCursor(r).cursor.backfillComplete
  }

  /** The record is not among the events read from lo to hi. */
  ghost predicate Unread(r: StreamRun, t: int, lo: int, hi: int)
    requires Happens(r)
  {
    AtEvents(r).store == map[] || !(lo <= t <= hi)
  }

  lemma UnreadIsNone(r: StreamRun, stream: Stream, t: int, historyFrom: Option<int>, lag: int, through: int, lo: int, hi: int, e: Event)
    requires OneRecord(r, stream, t, historyFrom, lag, through) && Unread(r, t, lo, hi) && lo <= e.at <= hi
    ensures !StoredEvent(AtEvents(r), e)
  {
    if StoredEvent(AtEvents(r), e) {
      StoredIsTrueEvent(r, e);
      OnlyPayment(r.env, t, e);
    }
  }

  /** A reading of the interval that claims `through` and holds nothing where one unit was paid. */
  lemma NothingRead(p: StreamRun, t: int, historyFrom: Option<int>, lag: int, through: int, start: int, end: int, lo: int, hi: int)
    returns (r: Reading)
    requires OneRecord(p, PositionHistory, t, historyFrom, lag, through) && Unread(p, t, lo, hi) && start < t <= end
    ensures Taken(r) && FundingThrough(r) == Some(through) && r.position == p && !SavedBetween(r.account)
    ensures r.start == start && r.end == end && r.lo == lo && r.hi == hi && r.market == 10
    ensures r.account.env.lag == lag && r.account.env.binding == Binding(7, 1, 10, historyFrom)
    ensures r.events == [] && Settled(r.truth, 10, start, end) == 1 && !FigureTrue(r)
  {
    var a := NothingMissed(AccountHistory, t, historyFrom, lag, through);
    var e := PaymentEvent(PositionHistory, t);
    r := Reading(a, p, {}, lo, hi, [], start, end, [e], 10);
    forall f ensures IsTrue(r, f) <==> f == e {
      OnlyPayment(p.env, t, f);
      OnlyPayment(a.env, t, f);
    }
    forall f: Event | lo <= f.at <= hi ensures !IsStored(r, f) {
      UnreadIsNone(p, PositionHistory, t, historyFrom, lag, through, lo, hi, f);
    }
    ThroughOfTwo(AtCursor(a).cursor, AtCursor(p).cursor, through);
    OnePaymentSettles(e, t, start, end);
  }

  lemma ThroughOfTwo(a: Cursor, p: Cursor, t: int)
    requires Complete(a) && Complete(p) && a.syncedThrough == p.syncedThrough == Some(t)
    ensures Through([(AccountHistory, a), (PositionHistory, p)], {AccountHistory, PositionHistory}) == Some(t)
  {
    var cursors := [(AccountHistory, a), (PositionHistory, p)];
    var streams := {AccountHistory, PositionHistory};
    assert cursors[1..] == [cursors[1]] && cursors[1..][1..] == [];
    assert Claims(cursors[1..], streams) == [p];
    assert Claims(cursors, streams) == [a, p];
    assert Moments([a, p]) == [t, t];
    var id := (z: int) => z;
    SortSorts([t, t], id);
    assert Sort([t, t], id)[0] in multiset([t, t]);
  }

  lemma TotalOne(e: Event, f: Field, w: Window)
    ensures Total([e], f, w) == Share(e, f, w)
  {
    assert [e][..0] == [];
  }

  lemma OnePaymentSettles(e: Event, t: int, start: int, end: int)
    requires start < t <= end && e == PaymentEvent(PositionHistory, t)
    ensures Settled([e], 10, start, end) == 1 && Settled([], 10, start, end) == 0
  {
    assert [e][..0] == [] && CountedIn([e], [], 10) == [];
    assert ReconciledFunding([e], 10) == [e];
    TotalOne(e, Funding, Between(start, end));
  }

  // ---- Exactly when the figure is true ----

  /** The readings of one interval under one claim, floor and lag, with or without cursors saved between the reads. */
  ghost predicate Within(r: Reading, historyFrom: Option<int>, lag: int, gap: bool, through: int, start: int, end: int) {
    && Taken(r) && Reportable(r) && FundingThrough(r) == Some(through) && r.start == start && r.end == end
    && r.account.env.binding.historyFrom == historyFrom && r.account.env.lag <= lag && r.position.env.lag <= lag
    && (gap || (!SavedBetween(r.account) && !SavedBetween(r.position)))
  }

  ghost predicate SoundFor(historyFrom: Option<int>, lag: int, gap: bool, through: int, start: int, end: int) {
    forall r: Reading :: Within(r, historyFrom, lag, gap, through, start, end) ==> FigureTrue(r)
  }

  /**
   The source accepts an interval that is claimed to its end. The figure is true of every reading exactly when,
   besides, the interval opens no earlier than the configured floor, the claim exceeds its end by what the venue
   may lag, and no cursor is saved between the reading of the events and that of the cursor.
   */
  lemma SoundExactly(historyFrom: Option<int>, lag: int, gap: bool, through: int, start: int, end: int)
    requires start < end <= through
    ensures SoundFor(historyFrom, lag, gap, through, start, end)
       <==> (historyFrom.None? || historyFrom.value <= start + 1) && end + lag <= through && !gap
  {
    var floor := historyFrom.None? || historyFrom.value <= start + 1;
    if !floor || end + lag > through || gap {
      var m := if !floor then Below else if end + lag > through then Late else ReadPast;
      var t := if m.Below? then start + 1 else end;
      var p := MissedBy(m, PositionHistory, t, historyFrom, lag, through);
      var r := NothingRead(p, t, historyFrom, lag, through, start, end, start, end);
      assert Within(r, historyFrom, lag, gap, through, start, end);
    } else {
      forall r: Reading | Within(r, historyFrom, lag, gap, through, start, end) ensures FigureTrue(r) {
        SettledIsTrue(r);
      }
    }
  }
}

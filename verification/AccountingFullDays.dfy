// What a day's settled funding and trading fees say about the venue's true history, and exactly when: for every
// day with a figure, and for the days not marked partial, which a reader takes to be complete.
module AccountingFullDays {
  import opened Options
  import opened PerplHistory
  import opened AccountingMath
  import opened AccountingDaily
  import opened AccountingTheorems
  import opened Crawl
  import opened AccountingHistory

  function First(d: int): int { d * DAY }

  function Last(d: int): int { (d + 1) * DAY - 1 }

  // ---- Windows ----

  lemma {:induction false} SameWindow(events: seq<Event>, f: Field, v: Window, w: Window)
    requires forall t :: In(t, v) == In(t, w)
    ensures Total(events, f, v) == Total(events, f, w)
  {
    if events != [] { SameWindow(events[..|events| - 1], f, v, w); }
  }

  /** The range asked for contains the day. */
  ghost predicate Contains(from: int, to: int, d: int) { from <= First(d) && Last(d) <= to }

  lemma DayWindow(events: seq<Event>, f: Field, from: int, to: int, d: int)
    requires Contains(from, to, d)
    ensures Total(events, f, OnDay(d, from, to)) == Total(events, f, Between(First(d) - 1, Last(d)))
  {
    SameWindow(events, f, OnDay(d, from, to), Between(First(d) - 1, Last(d)));
  }

  // ---- What the row says of the claims ----

  /** The row shows a figure for a history claimed to `through`, short of unattributed movements. */
  ghost predicate Shown(through: int, historyFrom: Option<int>, d: int) {
    First(d) <= through && (historyFrom.None? || First(d) + DAY > historyFrom.value)
  }

  lemma FeesShown(x: Inputs, d: int)
    ensures DayRow(x, d).tradingFeesUsd.Some? <==> x.fillsThrough.Some? && Shown(x.fillsThrough.value, x.historyFrom, d)
    ensures DayRow(x, d).tradingFeesUsd.Some? ==>
              DayRow(x, d).tradingFeesUsd.value == Dollars(Total(InMarket(x.events, x.marketId), Fees, OnDay(d, x.from, x.to)))
  {
  }

  lemma FundingShown(x: Inputs, d: int)
    ensures DayRow(x, d).fundingSettledUsd.Some? <==>
              x.fundingThrough.Some? && Shown(x.fundingThrough.value, x.historyFrom, d) && !UnknownOn(x.events, d)
    ensures DayRow(x, d).fundingSettledUsd.Some? ==> DayRow(x, d).fundingSettledUsd.value == SettledOnDay(x, d)
  {
  }

  /** What a day not marked partial needs of the range and of the claims. */
  ghost predicate CanBeFull(x: Inputs, d: int) {
    && x.from <= First(d) && First(d) + DAY <= x.to
    && x.fundingThrough.Some? && First(d) + DAY <= x.fundingThrough.value && Shown(x.fundingThrough.value, x.historyFrom, d)
    && x.fillsThrough.Some? && Shown(x.fillsThrough.value, x.historyFrom, d)
  }

  lemma FullDayNeeds(x: Inputs, d: int)
    requires !DayRow(x, d).partial
    ensures CanBeFull(x, d)
  {
    FullObservationHasNoGap(x, d, First(d));
    FullObservationHasNoGap(x, d, Last(d));
    FeesShown(x, d);
    FundingShown(x, d);
  }

  // ---- Inputs that make a day full ----

  /** Two snapshots and two observations, one at either end of the day. */
  ghost function Edges(x: Inputs, d: int): Inputs {
    var s := Snapshot(First(d), false, Some(1.0), true, 1.0, Some(1100.0), 1.0, 1.0, 1.0);
    x.(snapshots := [s, s.(at := First(d) + DAY)],
       observations := [Observation(1, First(d), Some(0.0)), Observation(1, First(d) + DAY, Some(0.0))],
       maxGapMs := DAY)
  }

  lemma SortTwo<T>(a: T, b: T, at: T -> int)
    requires at(a) <= at(b)
    ensures Sort([a, b], at) == [a, b]
  {
    assert [a, b][..1] == [a] && [a][..0] == [];
    assert Sort([a][..0], at) == [];
    assert Insert(a, [], at) == [a];
    assert Sort([a], at) == [a];
    assert [a][1..] == [];
    assert Insert(b, [], at) == [b];
    assert Insert(b, [a], at) == [a] + Insert(b, [a][1..], at);
  }

  lemma EdgesStake(x: Inputs, d: int)
    requires x == Edges(x, d) && x.from <= First(d) && First(d) + DAY <= x.to
    ensures DayRow(x, d).stakingCoveredMs == DAY
  {
    var snaps := SnapshotsOf(x);
    SortTwo(x.snapshots[0], x.snapshots[1], (s: Snapshot) => s.at);
    assert snaps == x.snapshots;
    PairStep(x, snaps, 1, d);
    assert Overlap(First(d), First(d) + DAY, d) == DAY;
    assert AccrualAfter(x, snaps, 1, d) == NOTHING;
    PieceMs(x, NOTHING, snaps[0], snaps[1], DAY, Staking);
    PairSpansExact(x, snaps, 2, Staking, d);
  }

  lemma EdgesObserve(x: Inputs, d: int)
    requires x == Edges(x, d) && x.from <= First(d) && First(d) + DAY <= x.to && x.events == []
    requires x.fundingThrough.Some? && First(d) + DAY <= x.fundingThrough.value
    ensures DayRow(x, d).fundingObservedMs == DAY
  {
    var obs := ObservationsOf(x);
    SortTwo(x.observations[0], x.observations[1], (o: Observation) => o.at);
    assert obs == x.observations;
    assert Accepted(x, obs, 1);
    assert Overlap(First(d), First(d) + DAY, d) == DAY;
    assert ObservedMsAfter(x, obs, 1, d) == 0;
    assert ObservedMsAfter(x, obs, 2, d) == DAY;
  }

  /** Whatever can be full is, when nothing was recorded and snapshots and observations stand at the day's edges. */
  lemma EdgesAreFull(x: Inputs, d: int)
    requires x == Edges(x, d) && CanBeFull(x, d) && x.events == []
    ensures !DayRow(x, d).partial
  {
    EdgesStake(x, d);
    EdgesObserve(x, d);
    FeesShown(x, d);
    FundingShown(x, d);
  }

  // ---- Settled funding of a day ----

  /** The reading covers the day and is what the inputs were made of. */
  ghost predicate Feeds(r: Reading, x: Inputs, d: int) {
    && Taken(r) && r.start == First(d) - 1 && r.end == Last(d)
    && x.events == r.events && r.lo <= x.from && x.to <= r.hi
    && x.marketId == Some(r.market) && x.historyFrom == r.account.env.binding.historyFrom && x.fundingThrough == FundingThrough(r)
  }

  ghost predicate FundingTrue(r: Reading, x: Inputs, d: int) {
    var figure := DayRow(x, d).fundingSettledUsd;
    figure.Some? ==> figure.value == Dollars(Settled(r.truth, r.market, First(d) - 1, Last(d)))
  }

  /** The claims, range and surroundings under which days are judged. */
  datatype Setting = Setting(from: int, to: int, historyFrom: Option<int>, through: int, lag: int, gap: bool)

  ghost predicate FundingUnder(r: Reading, x: Inputs, d: int, s: Setting) {
    && Feeds(r, x, d) && x.from == s.from && x.to == s.to && x.historyFrom == s.historyFrom && x.fundingThrough == Some(s.through)
    && r.account.env.lag <= s.lag && r.position.env.lag <= s.lag
    && (s.gap || (!SavedBetween(r.account) && !SavedBetween(r.position)))
  }

  /** The figure is true in every such reading; `full` judges only days not marked partial. */
  ghost predicate FundingSound(d: int, s: Setting, full: bool) {
    forall r: Reading, x: Inputs :: FundingUnder(r, x, d, s) && !(full && DayRow(x, d).partial) ==> FundingTrue(r, x, d)
  }

  /** The day lies within the range and above the floor, the claim passes its end by the lag, and nothing is read past. */
  ghost predicate Whole(d: int, s: Setting) {
    && Contains(s.from, s.to, d)
    && (s.historyFrom.None? || s.historyFrom.value <= First(d))
    && Last(d) + s.lag <= s.through && !s.gap
  }

  lemma CompleteFundingTrue(r: Reading, x: Inputs, d: int, s: Setting)
    requires FundingUnder(r, x, d, s) && Whole(d, s)
    ensures FundingTrue(r, x, d)
  {
    SettledIsTrue(r);
    FundingShown(x, d);
    DayWindow(FundingOf(x), Funding, x.from, x.to, d);
  }

  /** The day's record that some reading lacks when the setting is not complete, and why. */
  datatype Gone = Missed(m: Miss) | OutOfRange

  /** The way a record of the day is missed, and when it is stamped. */
  ghost function Culprit(d: int, s: Setting): (g: (Gone, int))
    requires !Whole(d, s)
    ensures First(d) <= g.1 <= Last(d)
    ensures g.0.Missed? ==> Missable(g.0.m, g.1, s.historyFrom, s.lag, s.through) && (g.0.m.ReadPast? ==> s.gap)
    ensures g.0.OutOfRange? ==> !(s.from <= g.1 <= s.to)
    ensures g.0.OutOfRange? ==> !Contains(s.from, s.to, d)
  {
    if s.from > First(d) then (OutOfRange, First(d))
    else if s.to < Last(d) then (OutOfRange, Last(d))
    else if s.historyFrom.Some? && s.historyFrom.value > First(d) then (Missed(Below), First(d))
    else if Last(d) + s.lag > s.through then (Missed(Late), Last(d))
    else (Missed(ReadPast), First(d))
  }

  lemma LostRecord(stream: Stream, d: int, s: Setting) returns (p: StreamRun, t: int)
    requires !Whole(d, s)
    ensures First(d) <= t <= Last(d)
    ensures OneRecord(p, stream, t, s.historyFrom, s.lag, s.through) && Unread(p, t, s.from, s.to) && (SavedBetween(p) ==> s.gap)
  {
    var g := Culprit(d, s);
    t := g.1;
    if g.0.Missed? {
      p := MissedBy(g.0.m, stream, t, s.historyFrom, s.lag, s.through);
    } else {
      p := Collected(stream, t, s.historyFrom, s.lag, s.through);
    }
  }

  /** Inputs with nothing recorded, claims as set, and snapshots and observations at the day's edges. */
  ghost function Empty(d: int, s: Setting, funding: int, fills: int): Inputs {
    Edges(Inputs(s.from, s.to, [], [], [], Some(10), Some(funding), Some(fills), None, s.historyFrom, DAY, (_, _) => 0.0), d)
  }

  lemma EmptyFigures(d: int, s: Setting, funding: int, fills: int)
    requires Shown(funding, s.historyFrom, d) && Shown(fills, s.historyFrom, d)
    ensures var row := DayRow(Empty(d, s, funding, fills), d); row.fundingSettledUsd == row.tradingFeesUsd == Some(0.0)
  {
    var x := Empty(d, s, funding, fills);
    FeesShown(x, d);
    FundingShown(x, d);
    assert Dollars(0) == 0.0;
  }

  /** A reading of the day, full if it can be, that shows nothing where one unit was paid. */
  lemma LostFunding(d: int, s: Setting) returns (r: Reading, x: Inputs)
    requires Shown(s.through, s.historyFrom, d) && !Whole(d, s)
    ensures FundingUnder(r, x, d, s) && !FundingTrue(r, x, d)
    ensures CanHoldFull(d, s) && First(d) + DAY <= s.through ==> !DayRow(x, d).partial
  {
    var p, t := LostRecord(PositionHistory, d, s);
    r := NothingRead(p, t, s.historyFrom, s.lag, s.through, First(d) - 1, Last(d), s.from, s.to);
    x := Empty(d, s, s.through, First(d));
    EmptyFigures(d, s, s.through, First(d));
    assert Dollars(1) != 0.0;
    if CanHoldFull(d, s) && First(d) + DAY <= s.through { EdgesAreFull(x, d); }
  }

  /**
   Settled funding is true in every reading exactly when the range contains the day, the floor is at or before its
   start, the claim passes its end by the lag, and no cursor is saved between the reads; or the row withholds it.
   The source shows it once the claim reaches the day's start and the floor lies before its end.
   */
  lemma FundingExactly(d: int, s: Setting)
    ensures FundingSound(d, s, false) <==> Whole(d, s) || !Shown(s.through, s.historyFrom, d)
  {
    if Whole(d, s) || !Shown(s.through, s.historyFrom, d) {
      forall r: Reading, x: Inputs | FundingUnder(r, x, d, s) ensures FundingTrue(r, x, d) {
        if Whole(d, s) { CompleteFundingTrue(r, x, d, s); } else { FundingShown(x, d); }
      }
    } else {
      var r, x := LostFunding(d, s);
    }
  }

  /** The range holds the whole day and the instant after it, as every day not marked partial has it. */
  ghost predicate CanHoldFull(d: int, s: Setting) { s.from <= First(d) && First(d) + DAY <= s.to }

  /** Some day under the setting need not be marked partial. */
  ghost predicate FundingCanBeFull(d: int, s: Setting) {
    Shown(s.through, s.historyFrom, d) && CanHoldFull(d, s) && First(d) + DAY <= s.through
  }

  lemma FullFundingNeeds(r: Reading, x: Inputs, d: int, s: Setting)
    requires FundingUnder(r, x, d, s) && !DayRow(x, d).partial
    ensures FundingCanBeFull(d, s)
  {
    FullDayNeeds(x, d);
  }

  /**
   The same of the days not marked partial, unless every day is. For them the range and, for a lag of at most one
   millisecond, the claim are no question: the floor decides.
   */
  lemma FullFundingExactly(d: int, s: Setting)
    ensures FundingSound(d, s, true) <==> Whole(d, s) || !FundingCanBeFull(d, s)
    ensures FundingCanBeFull(d, s) && s.lag <= 1 && !s.gap ==>
              (FundingSound(d, s, true) <==> s.historyFrom.None? || s.historyFrom.value <= First(d))
  {
    if Whole(d, s) {
      FundingExactly(d, s);
    } else if FundingCanBeFull(d, s) {
      var r, x := LostFunding(d, s);
    } else {
      forall r: Reading, x: Inputs | FundingUnder(r, x, d, s) ensures DayRow(x, d).partial {
        if !DayRow(x, d).partial { FullFundingNeeds(r, x, d, s); }
      }
    }
  }

  // ---- Trading fees of a day ----

  /** The fills stream, the events the store returned for a range, and the true fills of one day, of whatever market. */
  datatype FillReading = FillReading(fills: StreamRun, others: set<Event>, lo: int, hi: int, events: seq<Event>, truth: seq<Event>, market: int)

  ghost predicate FillsTaken(r: FillReading, d: int) {
    && Happens(r.fills) && r.fills.env.stream.Fills?
    && (forall e :: e in r.others ==> e.tradingFeeRaw.None?)
    && NoDuplicates(r.events) && NoDuplicates(r.truth)
    && (forall e :: e in r.events <==> r.lo <= e.at <= r.hi && (StoredEvent(AtEvents(r.fills), e) || e in r.others))
    && (forall e :: e in r.truth <==> First(d) <= e.at <= Last(d) && TrueEvent(r.fills.env, Eventually(r.fills).feed, e))
  }

  ghost predicate FeesUnder(r: FillReading, x: Inputs, d: int, s: Setting) {
    && FillsTaken(r, d) && x.events == r.events && r.lo <= x.from && x.to <= r.hi && x.marketId == Some(r.market)
    && x.historyFrom == r.fills.env.binding.historyFrom == s.historyFrom && x.from == s.from && x.to == s.to
    && x.fillsThrough == Through([(Fills, AtCursor(r.fills).cursor)], {Fills}) == Some(s.through)
    && r.fills.env.lag <= s.lag && (s.gap || !SavedBetween(r.fills))
  }

  ghost function TrueFees(r: FillReading, d: int): real {
    Dollars(Total(InMarket(r.truth, Some(r.market)), Fees, Between(First(d) - 1, Last(d))))
  }

  ghost predicate FeesTrue(r: FillReading, x: Inputs, d: int) {
    var figure := DayRow(x, d).tradingFeesUsd;
    figure.Some? ==> figure.value == TrueFees(r, d)
  }

  ghost predicate FeesSound(d: int, s: Setting, full: bool) {
    forall r: FillReading, x: Inputs :: FeesUnder(r, x, d, s) && !(full && DayRow(x, d).partial) ==> FeesTrue(r, x, d)
  }

  /** The events that carry a fee of the market in the window. */
  ghost predicate Charges(e: Event, market: int, w: Window) { e.marketId == Some(market) && e.tradingFeeRaw.Some? && In(e.at, w) }

  ghost function Charged(events: seq<Event>, market: int, w: Window): seq<Event> {
    if events == [] then []
    else
      var m := |events| - 1;
      Charged(events[..m], market, w) + (if Charges(events[m], market, w) then [events[m]] else [])
  }

  lemma {:induction false} ChargedTotal(events: seq<Event>, market: int, w: Window)
    ensures Total(InMarket(events, Some(market)), Fees, w) == Total(Charged(events, market, w), Fees, w)
  {
    if events != [] {
      var m := |events| - 1;
      var e := events[m];
      ChargedTotal(events[..m], market, w);
      TotalConcat(InMarket(events[..m], Some(market)), if e.marketId == Some(market) then [e] else [], Fees, w);
      TotalConcat(Charged(events[..m], market, w), if Charges(e, market, w) then [e] else [], Fees, w);
      TotalOne(e, Fees, w);
    }
  }

  lemma {:induction false} ChargedMultiset(events: seq<Event>, market: int, w: Window, e: Event)
    ensures multiset(Charged(events, market, w))[e] == if Charges(e, market, w) then multiset(events)[e] else 0
  {
    if events != [] {
      var m := |events| - 1;
      ChargedMultiset(events[..m], market, w, e);
      assert events == events[..m] + [events[m]];
    }
  }

  lemma FillsClaim(c: Cursor)
    ensures Through([(Fills, c)], {Fills}) == if Complete(c) then c.syncedThrough else None
  {
    var cursors, streams := [(Fills, c)], {Fills};
    assert cursors[1..] == [] && Claims(cursors[1..], streams) == [];
    assert Claims(cursors, streams) == [c];
    if Complete(c) {
      var t, id := c.syncedThrough.value, (z: int) => z;
      assert [c][1..] == [] && Moments([c]) == [t];
      assert [t][..0] == [] && Sort([t], id) == [t];
    } else {
      assert c in Claims(cursors, streams);
    }
  }

  lemma FillReadIsTrue(r: FillReading, x: Inputs, d: int, s: Setting, e: Event)
    requires FeesUnder(r, x, d, s) && Whole(d, s) && First(d) <= e.at <= Last(d) && e.tradingFeeRaw.Some?
    ensures e in r.events <==> e in r.truth
  {
    FillsClaim(AtCursor(r.fills).cursor);
    if e in r.truth {
      TrueIsStored(r.fills, e);
    } else if e in r.events {
      StoredIsTrueEvent(r.fills, e);
    }
  }

  lemma CompleteFeesTrue(r: FillReading, x: Inputs, d: int, s: Setting)
    requires FeesUnder(r, x, d, s) && Whole(d, s)
    ensures FeesTrue(r, x, d)
  {
    SameCharges(r, x, d, s);
    FeesShown(x, d);
    DayWindow(InMarket(x.events, x.marketId), Fees, x.from, x.to, d);
  }

  lemma SameCharges(r: FillReading, x: Inputs, d: int, s: Setting)
    requires FeesUnder(r, x, d, s) && Whole(d, s)
    ensures var w := Between(First(d) - 1, Last(d));
            Total(InMarket(r.events, Some(r.market)), Fees, w) == Total(InMarket(r.truth, Some(r.market)), Fees, w)
  {
    var w := Between(First(d) - 1, Last(d));
    var a, b := Charged(r.events, r.market, w), Charged(r.truth, r.market, w);
    forall e ensures multiset(a)[e] == multiset(b)[e] {
      ChargedMultiset(r.events, r.market, w, e);
      ChargedMultiset(r.truth, r.market, w, e);
      OnceEach(r.events, e);
      OnceEach(r.truth, e);
      if Charges(e, r.market, w) { FillReadIsTrue(r, x, d, s, e); }
    }
    assert multiset(a) == multiset(b);
    TotalOrderFree(a, b, Fees, w);
    ChargedTotal(r.events, r.market, w);
    ChargedTotal(r.truth, r.market, w);
  }

  /** A reading of the day, full if it can be, that shows no fee where one unit was charged. */
  lemma LostFee(d: int, s: Setting) returns (r: FillReading, x: Inputs)
    requires Shown(s.through, s.historyFrom, d) && !Whole(d, s)
    ensures FeesUnder(r, x, d, s) && !FeesTrue(r, x, d)
    ensures CanHoldFull(d, s) ==> !DayRow(x, d).partial
  {
    var p, t := LostRecord(Fills, d, s);
    x := Empty(d, s, First(d) + DAY, s.through);
    r := FillUnread(p, t, d, s);
    EmptyFigures(d, s, First(d) + DAY, s.through);
    OneFee(PaymentEvent(Fills, t), t, d);
    if CanHoldFull(d, s) { EdgesAreFull(x, d); }
  }

  lemma FillUnread(p: StreamRun, t: int, d: int, s: Setting) returns (r: FillReading)
    requires OneRecord(p, Fills, t, s.historyFrom, s.lag, s.through) && Unread(p, t, s.from, s.to) && First(d) <= t <= Last(d)
    requires SavedBetween(p) ==> s.gap
    ensures r == FillReading(p, {}, s.from, s.to, [], [PaymentEvent(Fills, t)], 10)
    ensures FeesUnder(r, Empty(d, s, First(d) + DAY, s.through), d, s)
  {
    var e := PaymentEvent(Fills, t);
    r := FillReading(p, {}, s.from, s.to, [], [e], 10);
    forall f ensures TrueEvent(p.env, Eventually(p).feed, f) <==> f == e {
      OnlyPayment(p.env, t, f);
    }
    forall f: Event | s.from <= f.at <= s.to ensures !StoredEvent(AtEvents(p), f) {
      UnreadIsNone(p, Fills, t, s.historyFrom, s.lag, s.through, s.from, s.to, f);
    }
    FillsClaim(AtCursor(p).cursor);
  }

  lemma OneFee(e: Event, t: int, d: int)
    requires e == PaymentEvent(Fills, t) && First(d) <= t <= Last(d)
    ensures Dollars(Total(InMarket([e], Some(10)), Fees, Between(First(d) - 1, Last(d)))) != 0.0
  {
    assert [e][..0] == [] && InMarket([e], Some(10)) == [e];
    TotalOne(e, Fees, Between(First(d) - 1, Last(d)));
  }

  /** The same for the trading fees of the fills stream. */
  lemma FeesExactly(d: int, s: Setting)
    ensures FeesSound(d, s, false) <==> Whole(d, s) || !Shown(s.through, s.historyFrom, d)
  {
    if Whole(d, s) || !Shown(s.through, s.historyFrom, d) {
      forall r: FillReading, x: Inputs | FeesUnder(r, x, d, s) ensures FeesTrue(r, x, d) {
        if Whole(d, s) { CompleteFeesTrue(r, x, d, s); } else { FeesShown(x, d); }
      }
    } else {
      var r, x := LostFee(d, s);
    }
  }

  ghost predicate FeesCanBeFull(d: int, s: Setting) { Shown(s.through, s.historyFrom, d) && CanHoldFull(d, s) }

  lemma FullFeesNeed(r: FillReading, x: Inputs, d: int, s: Setting)
    requires FeesUnder(r, x, d, s) && !DayRow(x, d).partial
    ensures FeesCanBeFull(d, s)
  {
    FullDayNeeds(x, d);
  }

  /**
   A day not marked partial shows its true trading fees in every reading exactly when, besides the floor and the
   reads, the claim of the fills passes its end by the lag, unless every day is marked. The mark asks only that the
   claim reach the day's start, so a day shown as complete may miss any fill after that.
   */
  lemma FullFeesExactly(d: int, s: Setting)
    ensures FeesSound(d, s, true) <==> Whole(d, s) || !FeesCanBeFull(d, s)
  {
    if Whole(d, s) {
      FeesExactly(d, s);
    } else if FeesCanBeFull(d, s) {
      var r, x := LostFee(d, s);
    } else {
      forall r: FillReading, x: Inputs | FeesUnder(r, x, d, s) ensures DayRow(x, d).partial {
        if !DayRow(x, d).partial { FullFeesNeed(r, x, d, s); }
      }
    }
  }
}

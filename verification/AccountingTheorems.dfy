/** What the daily projection promises about coverage, conservation and returns. */
module AccountingTheorems {
  import opened Options
  import opened PerplHistory
  import opened AccountingMath
  import opened AccountingDaily

  // ---- Spans: ordered, disjoint stretches of time ----

  datatype Span = Span(start: int, end: int)

  ghost predicate Ordered(spans: seq<Span>) {
    && (forall i :: 0 <= i < |spans| ==> spans[i].start < spans[i].end)
    && (forall i, j :: 0 <= i < j < |spans| ==> spans[i].end <= spans[j].start)
  }

  ghost function SpanMs(spans: seq<Span>, d: int): int {
    if spans == [] then 0
    else
      var m := |spans| - 1;
      SpanMs(spans[..m], d) + Overlap(spans[m].start, spans[m].end, d)
  }

  ghost predicate Holds(spans: seq<Span>, t: int) {
    exists i :: 0 <= i < |spans| && spans[i].start <= t < spans[i].end
  }

  /** How much of a day lies before a moment. */
  ghost function Before(t: int, d: int): int { Max(0, Min(t, (d + 1) * DAY) - d * DAY) }

  /** Disjoint spans cover no more of a day than has passed, and a moment they miss costs them a millisecond. */
  lemma {:induction false} SpansBound(spans: seq<Span>, d: int, t: int)
    requires Ordered(spans) && spans != [] && d * DAY <= t < (d + 1) * DAY
    ensures SpanMs(spans, d) <= Before(spans[|spans| - 1].end, d)
    ensures !Holds(spans, t) && t < spans[|spans| - 1].end ==> SpanMs(spans, d) < Before(spans[|spans| - 1].end, d)
  {
    var m := |spans| - 1;
    assert spans[..m][..] == spans[..m];
    if m > 0 {
      var rest := spans[..m];
      assert forall i :: 0 <= i < m ==> rest[i] == spans[i];
      SpansBound(rest, d, t);
      assert rest[m - 1].end <= spans[m].start;
      if !Holds(spans, t) {
        forall i | 0 <= i < m ensures !(rest[i].start <= t < rest[i].end) {
          assert !(spans[i].start <= t < spans[i].end);
        }
        assert !(spans[m].start <= t < spans[m].end);
      }
    } else {
      assert spans[..0] == [];
      if !Holds(spans, t) {
        assert !(spans[0].start <= t < spans[0].end);
      }
    }
  }

  lemma SpansFillDay(spans: seq<Span>, d: int, t: int)
    requires Ordered(spans) && d * DAY <= t < (d + 1) * DAY
    ensures 0 <= SpanMs(spans, d) <= DAY
    ensures SpanMs(spans, d) == DAY ==> Holds(spans, t)
  {
    SpanMsNonNegative(spans, d);
    if spans != [] {
      SpansBound(spans, d, t);
    }
  }

  lemma {:induction false} SpanMsNonNegative(spans: seq<Span>, d: int)
    ensures 0 <= SpanMs(spans, d)
  {
    if spans != [] { SpanMsNonNegative(spans[..|spans| - 1], d); }
  }

  // ---- The spans the projection counts ----

  /** What is accrued over a pair of snapshots: a staking estimate, or weighted capital. */
  datatype Measure = Staking | Capital

  ghost predicate Counts(m: Measure, previous: Snapshot, current: Snapshot) {
    if m.Staking? then previous.stakingApyBps.Some? else previous.shortBookFresh && current.shortBookFresh
  }

  ghost predicate CountedPair(x: Inputs, snaps: seq<Snapshot>, i: nat, m: Measure)
    requires 0 < i < |snaps|
  {
    SnapshotPair(x, snaps, i) && Counts(m, snaps[i - 1], snaps[i])
  }

  ghost function PairSpans(x: Inputs, snaps: seq<Snapshot>, n: nat, m: Measure): seq<Span>
    requires n <= |snaps|
  {
    if n <= 1 then []
    else
      var start, end := Max(snaps[n - 2].at, x.from), Min(snaps[n - 1].at, x.to);
      PairSpans(x, snaps, n - 1, m) + (if CountedPair(x, snaps, n - 1, m) && start < end then [Span(start, end)] else [])
  }

  ghost function ObservedSpans(x: Inputs, obs: seq<Observation>, n: nat): seq<Span>
    requires n <= |obs|
  {
    if n <= 1 then []
    else ObservedSpans(x, obs, n - 1) + (if Accepted(x, obs, n - 1) then [Span(obs[n - 2].at, obs[n - 1].at)] else [])
  }

  lemma SpanMsSnoc(spans: seq<Span>, s: Span, d: int)
    ensures SpanMs(spans + [s], d) == SpanMs(spans, d) + Overlap(s.start, s.end, d)
  {
    assert (spans + [s])[..|spans|] == spans;
  }

  ghost predicate PairHolds(x: Inputs, snaps: seq<Snapshot>, n: nat, m: Measure, t: int)
    requires n <= |snaps|
  {
    exists i :: 0 < i < n && CountedPair(x, snaps, i, m) && snaps[i - 1].at <= t < snaps[i].at
  }

  lemma {:induction false} PairSpansOrdered(x: Inputs, snaps: seq<Snapshot>, n: nat, m: Measure)
    requires n <= |snaps| && Sorted(snaps, (s: Snapshot) => s.at)
    ensures var spans := PairSpans(x, snaps, n, m);
            Ordered(spans) && forall i :: 0 <= i < |spans| ==> n > 0 && spans[i].end <= snaps[n - 1].at
  {
    if n > 1 {
      PairSpansOrdered(x, snaps, n - 1, m);
      var at := (s: Snapshot) => s.at;
      assert at(snaps[n - 2]) <= at(snaps[n - 1]);
    }
  }

  lemma {:induction false} PairSpansHold(x: Inputs, snaps: seq<Snapshot>, n: nat, m: Measure, t: int)
    requires n <= |snaps| && Holds(PairSpans(x, snaps, n, m), t)
    ensures PairHolds(x, snaps, n, m, t)
  {
    var spans := PairSpans(x, snaps, n, m);
    var k :| 0 <= k < |spans| && spans[k].start <= t < spans[k].end;
    var before := PairSpans(x, snaps, n - 1, m);
    if k < |before| {
      assert before[k] == spans[k];
      PairSpansHold(x, snaps, n - 1, m, t);
    } else {
      var i := n - 1;
      assert CountedPair(x, snaps, i, m) && snaps[i - 1].at <= t < snaps[i].at;
    }
  }

  ghost function MsOf(a: Accrual, m: Measure): int { if m.Staking? then a.ms else a.capitalMs }

  lemma {:induction false} PairSpansExact(x: Inputs, snaps: seq<Snapshot>, n: nat, m: Measure, d: int)
    requires n <= |snaps|
    ensures SpanMs(PairSpans(x, snaps, n, m), d) == MsOf(AccrualAfter(x, snaps, n, d), m)
  {
    if n > 1 {
      PairSpansExact(x, snaps, n - 1, m, d);
      PairStep(x, snaps, n - 1, d);
      PieceMs(x, AccrualAfter(x, snaps, n - 1, d), snaps[n - 2], snaps[n - 1], PairMs(x, snaps, n - 1, d), m);
      var start, end := Max(snaps[n - 2].at, x.from), Min(snaps[n - 1].at, x.to);
      var before := PairSpans(x, snaps, n - 1, m);
      SpanMsSnoc(before, Span(start, end), d);
      if !(CountedPair(x, snaps, n - 1, m) && start < end) {
        assert before + [] == before;
      }
    }
  }

  lemma PieceMs(x: Inputs, a: Accrual, previous: Snapshot, current: Snapshot, ms: int, m: Measure)
    ensures MsOf(AddPiece(x, a, previous, current, ms), m) == MsOf(a, m) + (if Counts(m, previous, current) then ms else 0)
  {
  }

  lemma {:induction false} ObservedSpansOrdered(x: Inputs, obs: seq<Observation>, n: nat)
    requires n <= |obs| && Sorted(obs, (o: Observation) => o.at)
    ensures var spans := ObservedSpans(x, obs, n);
            Ordered(spans) && forall i :: 0 <= i < |spans| ==> n > 0 && spans[i].end <= obs[n - 1].at
  {
    if n > 1 {
      ObservedSpansOrdered(x, obs, n - 1);
      var at := (o: Observation) => o.at;
      assert at(obs[n - 2]) <= at(obs[n - 1]);
    }
  }

  ghost predicate ObservedHolds(x: Inputs, obs: seq<Observation>, n: nat, t: int)
    requires n <= |obs|
  {
    exists i :: 0 < i < n && Accepted(x, obs, i) && obs[i - 1].at <= t < obs[i].at
  }

  lemma {:induction false} ObservedSpansHold(x: Inputs, obs: seq<Observation>, n: nat, t: int)
    requires n <= |obs| && Holds(ObservedSpans(x, obs, n), t)
    ensures ObservedHolds(x, obs, n, t)
  {
    var spans := ObservedSpans(x, obs, n);
    var k :| 0 <= k < |spans| && spans[k].start <= t < spans[k].end;
    var before := ObservedSpans(x, obs, n - 1);
    if k < |before| {
      assert before[k] == spans[k];
      ObservedSpansHold(x, obs, n - 1, t);
    } else {
      assert Accepted(x, obs, n - 1) && obs[(n - 1) - 1].at <= t < obs[n - 1].at;
    }
  }

  lemma {:induction false} ObservedSpansExact(x: Inputs, obs: seq<Observation>, n: nat, d: int)
    requires n <= |obs|
    ensures SpanMs(ObservedSpans(x, obs, n), d) == ObservedMsAfter(x, obs, n, d)
  {
    if n > 1 {
      ObservedSpansExact(x, obs, n - 1, d);
      var before := ObservedSpans(x, obs, n - 1);
      if Accepted(x, obs, n - 1) {
        SpanMsSnoc(before, Span(obs[n - 2].at, obs[n - 1].at), d);
      } else {
        assert before + [] == before;
      }
    }
  }

  lemma AccruedWithinDay(x: Inputs, d: int, m: Measure)
    ensures 0 <= MsOf(AccrualAfter(x, SnapshotsOf(x), |SnapshotsOf(x)|, d), m) <= DAY
  {
    var snaps := SnapshotsOf(x);
    SortSorts(x.snapshots, (s: Snapshot) => s.at);
    PairSpansExact(x, snaps, |snaps|, m, d);
    PairSpansOrdered(x, snaps, |snaps|, m);
    SpansFillDay(PairSpans(x, snaps, |snaps|, m), d, d * DAY);
  }

  /** However snapshots and observations overlap the day, no coverage ever exceeds its 86,400 seconds. */
  lemma CoverageWithinDay(x: Inputs, d: int)
    ensures 0 <= DayRow(x, d).stakingCoveredMs <= DAY
    ensures 0 <= DayRow(x, d).capitalCoveredMs <= DAY
    ensures 0 <= DayRow(x, d).fundingObservedMs <= DAY
  {
    var obs := ObservationsOf(x);
    AccruedWithinDay(x, d, Staking);
    AccruedWithinDay(x, d, Capital);
    SortSorts(x.observations, (o: Observation) => o.at);
    ObservedSpansExact(x, obs, |obs|, d);
    ObservedSpansOrdered(x, obs, |obs|);
    SpansFillDay(ObservedSpans(x, obs, |obs|), d, d * DAY);
  }

  lemma FullStakingHasNoGap(x: Inputs, d: int, t: int)
    requires DayRow(x, d).stakingCoveredMs >= DAY && d * DAY <= t < (d + 1) * DAY
    ensures var snaps := SnapshotsOf(x);
            PairHolds(x, snaps, |snaps|, Staking, t)
  {
    var snaps := SnapshotsOf(x);
    SortSorts(x.snapshots, (s: Snapshot) => s.at);
    PairSpansExact(x, snaps, |snaps|, Staking, d);
    PairSpansOrdered(x, snaps, |snaps|, Staking);
    SpansFillDay(PairSpans(x, snaps, |snaps|, Staking), d, t);
    PairSpansHold(x, snaps, |snaps|, Staking, t);
  }

  lemma FullObservationHasNoGap(x: Inputs, d: int, t: int)
    requires DayRow(x, d).fundingObservedMs >= DAY && d * DAY <= t < (d + 1) * DAY
    ensures var obs := ObservationsOf(x);
            ObservedHolds(x, obs, |obs|, t)
  {
    var obs := ObservationsOf(x);
    SortSorts(x.observations, (o: Observation) => o.at);
    ObservedSpansExact(x, obs, |obs|, d);
    ObservedSpansOrdered(x, obs, |obs|);
    SpansFillDay(ObservedSpans(x, obs, |obs|), d, t);
    ObservedSpansHold(x, obs, |obs|, t);
  }

  /**
   A day not marked partial has no gap: every millisecond lies in an accepted snapshot interval with a
   recorded rate and in an accepted observation interval, and the funding history is claimed to its end.
   */
  lemma FullDayHasNoGap(x: Inputs, d: int, t: int)
    requires !DayRow(x, d).partial && d * DAY <= t < (d + 1) * DAY
    ensures var snaps := SnapshotsOf(x);
            PairHolds(x, snaps, |snaps|, Staking, t)
    ensures var obs := ObservationsOf(x);
            exists i :: 0 < i < |obs| && Accepted(x, obs, i) && obs[i - 1].at <= t < obs[i].at
    ensures x.fundingThrough.Some? && (d + 1) * DAY <= x.fundingThrough.value && (d + 1) * DAY <= x.to
  {
    FullStakingHasNoGap(x, d, t);
    FullObservationHasNoGap(x, d, t);
    FullObservationHasNoGap(x, d, (d + 1) * DAY - 1);
  }

  // ---- Conservation of observed funding ----

  /** The figures of `days` days from `lo` on, added up. */
  ghost function SumDays(figure: int -> real, lo: int, days: nat): real {
    if days == 0 then 0.0 else SumDays(figure, lo, days - 1) + figure(lo + days - 1)
  }

  lemma {:induction false} SumDaysEqual(f: int -> real, g: int -> real, lo: int, days: nat)
    requires forall d :: f(d) == g(d)
    ensures SumDays(f, lo, days) == SumDays(g, lo, days)
  {
    if days > 0 { SumDaysEqual(f, g, lo, days - 1); }
  }

  ghost function Observed(x: Inputs, obs: seq<Observation>, n: nat): int -> real
    requires n <= |obs|
  {
    d => Or(ObservedAfter(x, obs, n, d), 0.0)
  }

  ghost function SumObserved(x: Inputs, obs: seq<Observation>, n: nat, lo: int, days: nat): real
    requires n <= |obs|
  {
    SumDays(Observed(x, obs, n), lo, days)
  }

  lemma {:induction false} SumObservedStep(x: Inputs, obs: seq<Observation>, i: nat, lo: int, days: nat)
    requires 0 < i < |obs|
    ensures SumObserved(x, obs, i + 1, lo, days)
         == SumObserved(x, obs, i, lo, days) + (if Accepted(x, obs, i) && lo <= DayOf(obs[i].at) < lo + days then Delta(x, obs, i) else 0.0)
  {
    if days > 0 {
      SumObservedStep(x, obs, i, lo, days - 1);
    }
  }

  lemma {:induction false} SumObservedNone(x: Inputs, obs: seq<Observation>, n: nat, lo: int, days: nat)
    requires n <= |obs| && n <= 1
    ensures SumObserved(x, obs, n, lo, days) == 0.0
  {
    if days > 0 { SumObservedNone(x, obs, n, lo, days - 1); }
  }

  /** First observation of the maximal run of accepted intervals that ends at observation k. */
  ghost function RunStart(x: Inputs, obs: seq<Observation>, k: nat): (i: nat)
    requires k < |obs|
    ensures i <= k && (k > 0 && Accepted(x, obs, k) ==> i < k)
    ensures i == 0 || !Accepted(x, obs, i)
    ensures forall j :: i < j <= k ==> Accepted(x, obs, j)
  {
    if k == 0 || !Accepted(x, obs, k) then k else RunStart(x, obs, k - 1)
  }

  /** Settled in the run plus what is open at its end, less what was open at its start. */
  ghost function RunTotal(x: Inputs, obs: seq<Observation>, i: nat, k: nat): real
    requires i < k < |obs| && obs[i].openFundingUsd.Some? && obs[k].openFundingUsd.Some?
  {
    Dollars(Total(FundingOf(x), Funding, Between(obs[i].at, obs[k].at))) + obs[k].openFundingUsd.value - obs[i].openFundingUsd.value
  }

  /** One term for each maximal run among the first k intervals. */
  ghost function RunsTotal(x: Inputs, obs: seq<Observation>, k: nat): real
    requires k < |obs|
    decreases k
  {
    if k == 0 then 0.0
    else if !Accepted(x, obs, k) then RunsTotal(x, obs, k - 1)
    else
      var i := RunStart(x, obs, k);
      assert Accepted(x, obs, i + 1);
      RunsTotal(x, obs, i) + RunTotal(x, obs, i, k)
  }

  /** Extending a run by one accepted interval: the middle observation cancels and no event is counted twice. */
  lemma RunExtends(x: Inputs, obs: seq<Observation>, i: nat, k: nat)
    requires i < k < |obs| - 1 && Sorted(obs, (o: Observation) => o.at)
    requires obs[i].openFundingUsd.Some? && obs[k].openFundingUsd.Some? && Accepted(x, obs, k + 1)
    ensures RunTotal(x, obs, i, k + 1) == RunTotal(x, obs, i, k) + Delta(x, obs, k + 1)
  {
    var at := (o: Observation) => o.at;
    assert at(obs[i]) <= at(obs[k]) && at(obs[k]) <= at(obs[k + 1]);
    TotalSplits(FundingOf(x), Funding, obs[i].at, obs[k].at, obs[k + 1].at);
  }

  lemma RunsTotalStep(x: Inputs, obs: seq<Observation>, k: nat)
    requires 0 < k < |obs| && Sorted(obs, (o: Observation) => o.at)
    ensures RunsTotal(x, obs, k) == RunsTotal(x, obs, k - 1) + (if Accepted(x, obs, k) then Delta(x, obs, k) else 0.0)
  {
    if Accepted(x, obs, k) {
      var i := RunStart(x, obs, k);
      if i < k - 1 {
        assert Accepted(x, obs, k - 1) && Accepted(x, obs, i + 1);
        assert RunStart(x, obs, k - 1) == i;
        RunExtends(x, obs, i, k - 1);
      }
    }
  }

  lemma {:induction false} ObservedTelescopes(x: Inputs, obs: seq<Observation>, n: nat)
    requires 0 < n <= |obs| && Sorted(obs, (o: Observation) => o.at)
    ensures SumObserved(x, obs, n, DayOf(x.from), Max(0, DayOf(x.to) - DayOf(x.from) + 1)) == RunsTotal(x, obs, n - 1)
  {
    var lo, days := DayOf(x.from), Max(0, DayOf(x.to) - DayOf(x.from) + 1);
    if n == 1 {
      SumObservedNone(x, obs, n, lo, days);
    } else {
      ObservedTelescopes(x, obs, n - 1);
      SumObservedStep(x, obs, n - 1, lo, days);
      RunsTotalStep(x, obs, n - 1);
    }
  }

  /** The observed funding each day's row reports, nothing counting as zero. */
  ghost function RowFunding(x: Inputs): int -> real { d => Or(DayRow(x, d).fundingObservedUsd, 0.0) }

  ghost function SumOfRows(x: Inputs, days: nat): real { SumDays(RowFunding(x), DayOf(x.from), days) }

  lemma RowObserved(x: Inputs, d: int)
    ensures DayRow(x, d).fundingObservedUsd == ObservedAfter(x, ObservationsOf(x), |ObservationsOf(x)|, d)
  {
    var snaps, obs := SnapshotsOf(x), ObservationsOf(x);
    BlankShape(x, snaps, d);
    var a := AccrualAfter(x, snaps, |snaps|, d);
    var settled := WithSettled(x, WithAccrual(a, WithReturn(x, snaps, |snaps|, Blank(x, d))));
    assert DayRow(x, d) == Finish(x, a.weighted, WithObserved(x, obs, |obs|, settled));
  }

  lemma SumOfRowsIsSumObserved(x: Inputs, days: nat)
    ensures SumOfRows(x, days) == SumObserved(x, ObservationsOf(x), |ObservationsOf(x)|, DayOf(x.from), days)
  {
    var rows, observed := RowFunding(x), Observed(x, ObservationsOf(x), |ObservationsOf(x)|);
    forall d ensures rows(d) == observed(d) {
      RowObserved(x, d);
    }
    SumDaysEqual(rows, observed, DayOf(x.from), days);
  }

  /**
   Conservation: what the rows report as observed funding is, run by run of accepted observations, the
   funding settled in the run plus the last open funding minus the first. Nothing else enters, nothing is lost.
   */
  lemma ObservedFundingConserved(x: Inputs)
    requires x.observations != []
    ensures SumOfRows(x, Max(0, DayOf(x.to) - DayOf(x.from) + 1)) == RunsTotal(x, ObservationsOf(x), |ObservationsOf(x)| - 1)
  {
    var obs := ObservationsOf(x);
    SortSorts(x.observations, (o: Observation) => o.at);
    ObservedTelescopes(x, obs, |obs|);
    SumOfRowsIsSumObserved(x, Max(0, DayOf(x.to) - DayOf(x.from) + 1));
  }

  /** No event belongs to two intervals, accepted or not. */
  lemma IntervalsShareNoEvent(x: Inputs, i: nat, j: nat, e: Event)
    requires 0 < i < j < |ObservationsOf(x)|
    requires In(e.at, Between(ObservationsOf(x)[i - 1].at, ObservationsOf(x)[i].at))
    ensures !In(e.at, Between(ObservationsOf(x)[j - 1].at, ObservationsOf(x)[j].at))
  {
    var obs := ObservationsOf(x);
    var at := (o: Observation) => o.at;
    SortSorts(x.observations, at);
    assert at(obs[i]) <= at(obs[j - 1]);
  }

  // ---- Conservation of settled funding ----

  ghost function SettledFigure(x: Inputs, d: int): Option<real> { DayRow(x, d).fundingSettledUsd }

  ghost function SettledOnDay(x: Inputs, d: int): real { Dollars(Total(FundingOf(x), Funding, OnDay(d, x.from, x.to))) }

  /** A reported figure is the exact reconciled sum of its day. */
  lemma SettledFigureExact(x: Inputs, d: int)
    ensures SettledFigure(x, d).Some? ==> SettledFigure(x, d).value == SettledOnDay(x, d)
  {
  }

  ghost function Sum(xs: seq<real>): real { if xs == [] then 0.0 else Sum(xs[..|xs| - 1]) + xs[|xs| - 1] }

  ghost function Reported(figures: seq<Option<real>>): real {
    if figures == [] then 0.0 else Reported(figures[..|figures| - 1]) + Or(figures[|figures| - 1], 0.0)
  }

  /** What the withheld figures would have shown. */
  ghost function Withheld(figures: seq<Option<real>>, truth: seq<real>): real
    requires |figures| == |truth|
  {
    if figures == [] then 0.0
    else
      var m := |figures| - 1;
      Withheld(figures[..m], truth[..m]) + (if figures[m].None? then truth[m] else 0.0)
  }

  lemma {:induction false} ReportedPlusWithheld(figures: seq<Option<real>>, truth: seq<real>)
    requires |figures| == |truth| && forall k :: 0 <= k < |truth| && figures[k].Some? ==> figures[k].value == truth[k]
    ensures Reported(figures) + Withheld(figures, truth) == Sum(truth)
  {
    if figures != [] {
      ReportedPlusWithheld(figures[..|figures| - 1], truth[..|figures| - 1]);
    }
  }

  ghost function SettledByDay(x: Inputs, days: nat): seq<real> { seq(days, k => SettledOnDay(x, DayOf(x.from) + k)) }

  ghost function SettledTo(x: Inputs, days: nat): int {
    Total(FundingOf(x), Funding, Between(x.from - 1, Min(x.to, (DayOf(x.from) + days) * DAY - 1)))
  }

  lemma {:induction false} DaysTile(events: seq<Event>, f: Field, d: int, from: int, to: int)
    requires DayOf(from) <= d
    ensures Total(events, f, Between(from - 1, Min(to, (d + 1) * DAY - 1)))
         == Total(events, f, Between(from - 1, Min(to, d * DAY - 1))) + Total(events, f, OnDay(d, from, to))
  {
    if events != [] { DaysTile(events[..|events| - 1], f, d, from, to); }
  }

  lemma {:induction false} NothingBefore(events: seq<Event>, f: Field, lo: int, hi: int)
    requires hi <= lo
    ensures Total(events, f, Between(lo, hi)) == 0
  {
    if events != [] { NothingBefore(events[..|events| - 1], f, lo, hi); }
  }

  lemma {:induction false} DaysCoverRange(x: Inputs, days: nat)
    ensures Sum(SettledByDay(x, days)) == Dollars(SettledTo(x, days))
  {
    if days == 0 {
      NothingBefore(FundingOf(x), Funding, x.from - 1, Min(x.to, DayOf(x.from) * DAY - 1));
    } else {
      DaysCoverRange(x, days - 1);
      DaysTile(FundingOf(x), Funding, DayOf(x.from) + days - 1, x.from, x.to);
      assert SettledByDay(x, days)[..days - 1] == SettledByDay(x, days - 1);
    }
  }

  ghost function SettledFigures(x: Inputs, days: nat): seq<Option<real>> { seq(days, k => SettledFigure(x, DayOf(x.from) + k)) }

  /** Reported days plus withheld days account for every reconciled payment of the range, each exactly once. */
  lemma SettledFundingConserved(x: Inputs)
    ensures var days := Max(0, DayOf(x.to) - DayOf(x.from) + 1);
            Reported(SettledFigures(x, days)) + Withheld(SettledFigures(x, days), SettledByDay(x, days))
            == Dollars(Total(FundingOf(x), Funding, Between(x.from - 1, x.to)))
  {
    var days := Max(0, DayOf(x.to) - DayOf(x.from) + 1);
    forall k | 0 <= k < days && SettledFigures(x, days)[k].Some? ensures SettledFigures(x, days)[k].value == SettledByDay(x, days)[k] {
      SettledFigureExact(x, DayOf(x.from) + k);
    }
    ReportedPlusWithheld(SettledFigures(x, days), SettledByDay(x, days));
    DaysCoverRange(x, days);
    if days == 0 {
      NothingBefore(FundingOf(x), Funding, x.from - 1, x.to);
      NothingBefore(FundingOf(x), Funding, x.from - 1, Min(x.to, DayOf(x.from) * DAY - 1));
    }
  }

  // ---- Replay ----

  lemma {:induction false} InMarketMultiset(events: seq<Event>, market: Option<int>, e: Event)
    ensures multiset(InMarket(events, market))[e] == if e.marketId == market then multiset(events)[e] else 0
  {
    if events != [] {
      var m := |events| - 1;
      InMarketMultiset(events[..m], market, e);
      assert events == events[..m] + [events[m]];
    }
  }

  lemma SameElements(a: seq<Event>, b: seq<Event>)
    requires multiset(a) == multiset(b)
    ensures forall e :: e in a <==> e in b
  {
    forall e ensures e in a <==> e in b {
      assert e in multiset(a) <==> e in multiset(b);
    }
  }

  lemma SameFunding(x: Inputs, y: Inputs, w: Window)
    requires multiset(x.events) == multiset(y.events) && y == x.(events := y.events)
    ensures Total(FundingOf(x), Funding, w) == Total(FundingOf(y), Funding, w)
  {
    if x.marketId.Some? {
      ReconciledOrderFree(x.events, y.events, x.marketId.value, Funding, w);
    }
  }

  lemma SameInMarket(x: Inputs, y: Inputs, f: Field, w: Window)
    requires multiset(x.events) == multiset(y.events) && y == x.(events := y.events)
    ensures Total(InMarket(x.events, x.marketId), f, w) == Total(InMarket(y.events, y.marketId), f, w)
  {
    var a, b := InMarket(x.events, x.marketId), InMarket(y.events, y.marketId);
    forall e ensures multiset(a)[e] == multiset(b)[e] {
      InMarketMultiset(x.events, x.marketId, e);
      InMarketMultiset(y.events, y.marketId, e);
    }
    assert multiset(a) == multiset(b);
    TotalOrderFree(a, b, f, w);
  }

  lemma {:induction false} SameObserved(x: Inputs, y: Inputs, obs: seq<Observation>, n: nat, d: int)
    requires multiset(x.events) == multiset(y.events) && y == x.(events := y.events) && n <= |obs|
    ensures ObservedAfter(x, obs, n, d) == ObservedAfter(y, obs, n, d)
    ensures ObservedMsAfter(x, obs, n, d) == ObservedMsAfter(y, obs, n, d)
  {
    if n > 1 {
      SameObserved(x, y, obs, n - 1, d);
      SameElements(x.events, y.events);
      assert Accepted(x, obs, n - 1) == Accepted(y, obs, n - 1);
      SameFunding(x, y, Between(obs[n - 2].at, obs[n - 1].at));
    }
  }

  lemma {:induction false} SameAccrual(x: Inputs, y: Inputs, snaps: seq<Snapshot>, n: nat, d: int)
    requires y == x.(events := y.events) && n <= |snaps|
    ensures AccrualAfter(x, snaps, n, d) == AccrualAfter(y, snaps, n, d)
  {
    if n > 1 {
      SameAccrual(x, y, snaps, n - 1, d);
      PairStep(x, snaps, n - 1, d);
      PairStep(y, snaps, n - 1, d);
      SamePiece(x, y, AccrualAfter(x, snaps, n - 1, d), snaps[n - 2], snaps[n - 1], PairMs(x, snaps, n - 1, d));
    }
  }

  lemma SamePiece(x: Inputs, y: Inputs, a: Accrual, previous: Snapshot, current: Snapshot, ms: int)
    requires x.growth == y.growth
    ensures AddPiece(x, a, previous, current, ms) == AddPiece(y, a, previous, current, ms)
  {
    if previous.stakingApyBps.Some? {
      assert x.growth(previous.stakingApyBps.value, ms) == y.growth(previous.stakingApyBps.value, ms);
      assert StakingMon(x, previous, ms) == StakingMon(y, previous, ms);
      assert StakingUsd(x, previous, ms) == StakingUsd(y, previous, ms);
    }
  }

  lemma {:induction false} SameBase(x: Inputs, y: Inputs, snaps: seq<Snapshot>, n: nat, d: int)
    requires y == x.(events := y.events) && n <= |snaps|
    ensures BaseAfter(x, snaps, n) == BaseAfter(y, snaps, n) && LastOn(x, snaps, n, d) == LastOn(y, snaps, n, d)
  {
    if n > 0 { SameBase(x, y, snaps, n - 1, d); }
  }

  lemma SameReturn(x: Inputs, y: Inputs, snaps: seq<Snapshot>, d: int)
    requires y == x.(events := y.events)
    ensures WithReturn(x, snaps, |snaps|, Blank(x, d)) == WithReturn(y, snaps, |snaps|, Blank(y, d))
  {
    SameBase(x, y, snaps, |snaps|, d);
    var k := LastOn(x, snaps, |snaps|, d);
    if k.Some? { SameBase(x, y, snaps, k.value + 1, d); }
  }

  lemma SameSettled(x: Inputs, y: Inputs, day: Day)
    requires multiset(x.events) == multiset(y.events) && y == x.(events := y.events)
    ensures WithSettled(x, day) == WithSettled(y, day)
  {
    var w := OnDay(day.date, x.from, x.to);
    SameElements(x.events, y.events);
    assert UnknownOn(x.events, day.date) == UnknownOn(y.events, day.date);
    SameFunding(x, y, w);
    SameInMarket(x, y, Fees, w);
    SameInMarket(x, y, Pnl, w);
  }

  /** The order in which the crawl delivered or the store returns the rows is invisible in every figure of every day. */
  lemma DeliveryOrderInvisible(x: Inputs, y: Inputs, d: int)
    requires multiset(x.events) == multiset(y.events) && y == x.(events := y.events)
    ensures DayRow(x, d) == DayRow(y, d)
  {
    var snaps, obs := SnapshotsOf(x), ObservationsOf(x);
    var a := AccrualAfter(x, snaps, |snaps|, d);
    SameAccrual(x, y, snaps, |snaps|, d);
    SameReturn(x, y, snaps, d);
    var marked := WithReturn(x, snaps, |snaps|, Blank(x, d));
    var settled := WithSettled(x, WithAccrual(a, marked));
    SameSettled(x, y, WithAccrual(a, marked));
    SameObserved(x, y, obs, |obs|, settled.date);
    var observed := WithObserved(x, obs, |obs|, settled);
    assert DayRow(x, d) == Finish(x, a.weighted, observed);
    assert DayRow(y, d) == Finish(y, a.weighted, observed);
  }

  // ---- Share return ----

  lemma {:induction false} BaselineKept(x: Inputs, snaps: seq<Snapshot>, i: nat, n: nat)
    requires i <= n <= |snaps|
    ensures BaseAfter(x, snaps, i).segment <= BaseAfter(x, snaps, n).segment
    ensures BaseAfter(x, snaps, i).baseline.Some? && BaseAfter(x, snaps, i).segment == BaseAfter(x, snaps, n).segment
            ==> BaseAfter(x, snaps, i).baseline == BaseAfter(x, snaps, n).baseline
    decreases n
  {
    if i < n { BaselineKept(x, snaps, i, n - 1); }
  }

  /** The row's return is its share price over the baseline. */
  ghost predicate MeasuredFrom(row: Day, baseline: real) {
    && baseline > 0.0 && row.pricePerShareUsd.Some? && row.vaultReturnPct.Some?
    && row.vaultReturnPct.value == (row.pricePerShareUsd.value / baseline - 1.0) * 100.0
  }

  /** The row is of the segment that the first k snapshots leave, and measured from its baseline. */
  ghost predicate StandsOn(x: Inputs, row: Day, k: nat) {
    && k <= |SnapshotsOf(x)|
    && var base := BaseAfter(x, SnapshotsOf(x), k);
      row.returnSegment == Some(base.segment) && base.baseline.Some? && MeasuredFrom(row, base.baseline.value)
  }

  lemma ReturnOnBaseline(x: Inputs, d: int) returns (k: nat)
    requires DayRow(x, d).returnSegment.Some?
    ensures k < |SnapshotsOf(x)| && StandsOn(x, DayRow(x, d), k + 1)
  {
    var snaps := SnapshotsOf(x);
    k := LastOn(x, snaps, |snaps|, d).value;
    BasePositive(x, snaps, k + 1);
  }

  lemma GrossReturn(price: real, baseline: real, r: real)
    requires baseline > 0.0 && r == (price / baseline - 1.0) * 100.0
    ensures (100.0 + r) * baseline == 100.0 * price
  {
    assert price / baseline * baseline == price;
    assert 100.0 + r == 100.0 * (price / baseline);
  }

  /** The rows' gross returns stand in the ratio of their share prices. */
  ghost predicate Comparable(p: Day, q: Day) {
    && p.vaultReturnPct.Some? && q.vaultReturnPct.Some? && p.pricePerShareUsd.Some? && q.pricePerShareUsd.Some?
    && (100.0 + p.vaultReturnPct.value) * q.pricePerShareUsd.value == (100.0 + q.vaultReturnPct.value) * p.pricePerShareUsd.value
  }

  lemma SameBaseline(p: Day, q: Day, baseline: real)
    requires MeasuredFrom(p, baseline) && MeasuredFrom(q, baseline)
    ensures Comparable(p, q)
  {
    RatioOfPrices(p.pricePerShareUsd.value, q.pricePerShareUsd.value, baseline, p.vaultReturnPct.value, q.vaultReturnPct.value);
  }

  lemma SegmentFixesBaseline(x: Inputs, snaps: seq<Snapshot>, i: nat, j: nat)
    requires i <= |snaps| && j <= |snaps| && BaseAfter(x, snaps, i).segment == BaseAfter(x, snaps, j).segment
    requires BaseAfter(x, snaps, i).baseline.Some? && BaseAfter(x, snaps, j).baseline.Some?
    ensures BaseAfter(x, snaps, i).baseline == BaseAfter(x, snaps, j).baseline
  {
    if i <= j { BaselineKept(x, snaps, i, j); } else { BaselineKept(x, snaps, j, i); }
  }

  lemma SharedBaseline(x: Inputs, a: int, b: int) returns (baseline: real)
    requires DayRow(x, a).returnSegment.Some? && DayRow(x, a).returnSegment == DayRow(x, b).returnSegment
    ensures MeasuredFrom(DayRow(x, a), baseline) && MeasuredFrom(DayRow(x, b), baseline)
  {
    var i := ReturnOnBaseline(x, a);
    var j := ReturnOnBaseline(x, b);
    baseline := StandTogether(x, DayRow(x, a), DayRow(x, b), i + 1, j + 1);
  }

  lemma StandTogether(x: Inputs, p: Day, q: Day, i: nat, j: nat) returns (baseline: real)
    requires StandsOn(x, p, i) && StandsOn(x, q, j) && p.returnSegment == q.returnSegment
    ensures MeasuredFrom(p, baseline) && MeasuredFrom(q, baseline)
  {
    SegmentFixesBaseline(x, SnapshotsOf(x), i, j);
    baseline := BaseAfter(x, SnapshotsOf(x), i).baseline.value;
  }

  /** Days of one segment share one baseline. */
  lemma SegmentSharesBaseline(x: Inputs, a: int, b: int)
    requires DayRow(x, a).returnSegment.Some? && DayRow(x, a).returnSegment == DayRow(x, b).returnSegment
    ensures Comparable(DayRow(x, a), DayRow(x, b))
  {
    var baseline := SharedBaseline(x, a, b);
    SameBaseline(DayRow(x, a), DayRow(x, b), baseline);
  }

  /** The same of two rows, by name. */
  lemma RowsComparable(x: Inputs, a: int, b: int, p: Day, q: Day)
    requires p == DayRow(x, a) && q == DayRow(x, b) && p.returnSegment.Some? && p.returnSegment == q.returnSegment
    ensures Comparable(p, q)
  {
    SegmentSharesBaseline(x, a, b);
  }

  lemma RatioOfPrices(p: real, q: real, base: real, r: real, s: real)
    requires base > 0.0 && r == (p / base - 1.0) * 100.0 && s == (q / base - 1.0) * 100.0
    ensures (100.0 + r) * q == (100.0 + s) * p
  {
    GrossReturn(p, base, r);
    GrossReturn(q, base, s);
    var a, b := 100.0 + r, 100.0 + s;
    assert a * base == 100.0 * p && b * base == 100.0 * q;
    assert (a * q) * base == (a * base) * q == 100.0 * p * q == (b * base) * p == (b * p) * base;
  }
}

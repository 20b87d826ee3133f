// The daily rows. The source walks snapshots, intervals and events in time order and mutates rows as it
// goes; the functions here say, one day at a time, what each row must end up holding.
module AccountingDaily {
  import opened Options
  import opened PerplHistory
  import opened AccountingMath

  datatype Day = Day(
    date: int, pricePerShareUsd: Option<real>, vaultReturnPct: Option<real>, returnSegment: Option<nat>,
    snapshotAt: Option<int>, shortBookFresh: Option<bool>,
    fundingSettledUsd: Option<real>, fundingObservedUsd: Option<real>, fundingObservedMs: int,
    tradingFeesUsd: Option<real>, realisedTradingPnlUsd: Option<real>,
    stakingEstimatedMon: Option<real>, stakingEstimatedUsd: Option<real>, stakingCoveredMs: int,
    capitalInUseUsd: Option<real>, capitalCoveredMs: int, strategyIncomeEstimatedUsd: Option<real>, partial: bool)

  type Rows = map<int, Day>

  function SnapshotsOf(x: Inputs): seq<Snapshot> { Sort(x.snapshots, (s: Snapshot) => s.at) }

  function ObservationsOf(x: Inputs): seq<Observation> { Sort(x.observations, (o: Observation) => o.at) }

  function FundingOf(x: Inputs): seq<Event> {
    if x.marketId.None? then [] else ReconciledFunding(x.events, x.marketId.value)
  }

  // ---- Blank rows ----

  predicate Claimed(through: Option<int>, t: int) { through.Some? && t <= through.value }

  function ZeroIf(b: bool): Option<real> { if b then Some(0.0) else None }

  function Blank(x: Inputs, d: int): Day {
    var t := d * DAY;
    var inRange := x.historyFrom.None? || t + DAY > x.historyFrom.value;
    Day(d, None, None, None, None, None,
        ZeroIf(Claimed(x.fundingThrough, t) && inRange), None, 0,
        ZeroIf(Claimed(x.fillsThrough, t) && inRange),
        ZeroIf(Claimed(x.positionsThrough, t) && inRange),
        None, None, 0, None, 0, None, true)
  }

  predicate Reported(x: Inputs, d: int) { DayOf(x.from) <= d <= DayOf(x.to) }

  method BlankRows(x: Inputs) returns (rows: Rows)
    ensures forall d :: d in rows <==> Reported(x, d)
    ensures forall d :: d in rows ==> rows[d] == Blank(x, d)
  {
    rows := map[];
    var t := DayOf(x.from) * DAY;
    while t <= x.to
      invariant t == DayOf(t) * DAY && DayOf(x.from) <= DayOf(t)
      invariant forall d :: d in rows <==> DayOf(x.from) <= d < DayOf(t)
      invariant forall d :: d in rows ==> rows[d] == Blank(x, d)
      invariant t == DayOf(x.from) * DAY || DayOf(t) <= DayOf(x.to) + 1
      decreases x.to - t
    {
      rows := rows[DayOf(t) := Blank(x, DayOf(t))];
      t := t + DAY;
    }
  }

  // ---- Share return: one baseline per segment ----

  predicate InRange(x: Inputs, t: int) { x.from <= t <= x.to }

  predicate Resets(s: Snapshot) { s.supplyZero || s.pricePerShareUsd.None? || s.pricePerShareUsd.value <= 0.0 }

  datatype Base = Base(baseline: Option<real>, segment: nat)

  function BaseStep(x: Inputs, b: Base, s: Snapshot): Base {
    if !InRange(x, s.at) then b
    else if Resets(s) then Base(None, b.segment + 1)
    else if !s.shortBookFresh then b
    else Base(Some(Or(b.baseline, s.pricePerShareUsd.value)), b.segment)
  }

  function BaseAfter(x: Inputs, snaps: seq<Snapshot>, n: nat): Base
    requires n <= |snaps|
  {
    if n == 0 then Base(None, 0) else BaseStep(x, BaseAfter(x, snaps, n - 1), snaps[n - 1])
  }

  /** The last in-range snapshot of a day among the first n. */
  function LastOn(x: Inputs, snaps: seq<Snapshot>, n: nat, d: int): (k: Option<nat>)
    requires n <= |snaps|
    ensures k.Some? ==> k.value < n && InRange(x, snaps[k.value].at) && DayOf(snaps[k.value].at) == d
    ensures forall j :: (if k.Some? then k.value + 1 else 0) <= j < n && InRange(x, snaps[j].at) ==> DayOf(snaps[j].at) != d
  {
    if n == 0 then None
    else if InRange(x, snaps[n - 1].at) && DayOf(snaps[n - 1].at) == d then Some(n - 1)
    else LastOn(x, snaps, n - 1, d)
  }

  /** A row after a snapshot, given the baseline and segment that snapshot leaves behind. */
  function Read(day: Day, s: Snapshot, base: Base): Day
    requires base.baseline.Some? ==> base.baseline.value > 0.0
  {
    var measured := !Resets(s) && s.shortBookFresh && base.baseline.Some?;
    day.(snapshotAt := Some(s.at),
         shortBookFresh := Some(s.shortBookFresh),
         pricePerShareUsd := if Resets(s) then None else s.pricePerShareUsd,
         vaultReturnPct := if measured then Some((s.pricePerShareUsd.value / base.baseline.value - 1.0) * 100.0) else None,
         returnSegment := if measured then Some(base.segment) else None)
  }

  lemma {:induction false} BasePositive(x: Inputs, snaps: seq<Snapshot>, n: nat)
    requires n <= |snaps|
    ensures var b := BaseAfter(x, snaps, n).baseline; b.Some? ==> b.value > 0.0
  {
    if n > 0 { BasePositive(x, snaps, n - 1); }
  }

  /** A day's return reading is decided by its last snapshot alone. */
  function WithReturn(x: Inputs, snaps: seq<Snapshot>, n: nat, day: Day): Day
    requires n <= |snaps|
  {
    match LastOn(x, snaps, n, day.date)
    case None => day
    case Some(k) =>
      BasePositive(x, snaps, k + 1);
      Read(day, snaps[k], BaseAfter(x, snaps, k + 1))
  }

  predicate ReadTo(x: Inputs, snaps: seq<Snapshot>, n: nat, rows: Rows, blank: Rows, d: int)
    requires n <= |snaps|
  {
    d in rows && d in blank && rows[d] == WithReturn(x, snaps, n, blank[d])
  }

  /** A snapshot outside the requested range is read by no row. */
  lemma PassedOver(x: Inputs, snaps: seq<Snapshot>, i: nat, rows: Rows, blank: Rows)
    requires i < |snaps| && !InRange(x, snaps[i].at)
    requires forall d :: d in rows ==> ReadTo(x, snaps, i, rows, blank, d)
    ensures forall d :: d in rows ==> ReadTo(x, snaps, i + 1, rows, blank, d)
    ensures BaseAfter(x, snaps, i + 1) == BaseAfter(x, snaps, i)
  {
    forall d | d in rows ensures ReadTo(x, snaps, i + 1, rows, blank, d) {
      assert ReadTo(x, snaps, i, rows, blank, d) && LastOn(x, snaps, i + 1, blank[d].date) == LastOn(x, snaps, i, blank[d].date);
    }
  }

  /** A reading replaces the one before it. */
  lemma LatestReading(x: Inputs, snaps: seq<Snapshot>, i: nat, day: Day, s: Snapshot, base: Base)
    requires i <= |snaps| && (base.baseline.Some? ==> base.baseline.value > 0.0)
    ensures Read(WithReturn(x, snaps, i, day), s, base) == Read(day, s, base)
  {
  }

  lemma Latest(x: Inputs, snaps: seq<Snapshot>, i: nat, d: int)
    requires i < |snaps| && InRange(x, snaps[i].at)
    ensures LastOn(x, snaps, i + 1, d) == if d == DayOf(snaps[i].at) then Some(i) else LastOn(x, snaps, i, d)
  {
  }

  /** A snapshot in range is read by the row of its day, over whatever that row had read before. */
  lemma ReadStep(x: Inputs, snaps: seq<Snapshot>, i: nat, rows: Rows, blank: Rows)
    requires i < |snaps| && InRange(x, snaps[i].at) && DayOf(snaps[i].at) in rows && rows.Keys == blank.Keys
    requires forall d :: d in blank ==> blank[d].date == d
    requires forall d :: d in rows ==> ReadTo(x, snaps, i, rows, blank, d)
    requires var b := BaseAfter(x, snaps, i + 1).baseline; b.Some? ==> b.value > 0.0
    ensures var d := DayOf(snaps[i].at);
            var rows' := rows[d := Read(rows[d], snaps[i], BaseAfter(x, snaps, i + 1))];
            forall e :: e in rows' ==> ReadTo(x, snaps, i + 1, rows', blank, e)
  {
    var d, base := DayOf(snaps[i].at), BaseAfter(x, snaps, i + 1);
    var rows' := rows[d := Read(rows[d], snaps[i], base)];
    forall e | e in rows' ensures ReadTo(x, snaps, i + 1, rows', blank, e) {
      assert ReadTo(x, snaps, i, rows, blank, e);
      Latest(x, snaps, i, e);
      if e == d { LatestReading(x, snaps, i, blank[d], snaps[i], base); }
    }
  }

  method MarkReturns(x: Inputs, snaps: seq<Snapshot>, blank: Rows) returns (rows: Rows)
    requires forall d :: d in blank <==> Reported(x, d)
    requires forall d :: d in blank ==> blank[d].date == d
    ensures rows.Keys == blank.Keys
    ensures forall d :: d in rows ==> ReadTo(x, snaps, |snaps|, rows, blank, d)
  {
    rows := blank;
    var baseline: Option<real>, segment: nat := None, 0;
    for i := 0 to |snaps|
      invariant rows.Keys == blank.Keys
      invariant Base(baseline, segment) == BaseAfter(x, snaps, i)
      invariant forall d :: d in rows ==> ReadTo(x, snaps, i, rows, blank, d)
    {
      var s := snaps[i];
      if s.at < x.from || s.at > x.to {
        PassedOver(x, snaps, i, rows, blank);
        continue;
      }
      if s.supplyZero || s.pricePerShareUsd.None? || s.pricePerShareUsd.value <= 0.0 {
        baseline := None;
        segment := segment + 1;
      } else if s.shortBookFresh && baseline.None? {
        baseline := s.pricePerShareUsd;
      }
      BasePositive(x, snaps, i + 1);
      var d := DayOf(s.at);
      assert Reported(x, d);
      ReadStep(x, snaps, i, rows, blank);
      rows := rows[d := Read(rows[d], s, Base(baseline, segment))];
    }
  }

  // ---- Staking and capital over snapshot intervals ----

  predicate SnapshotPair(x: Inputs, snaps: seq<Snapshot>, i: nat)
    requires 0 < i < |snaps|
  {
    snaps[i - 1].at < snaps[i].at && snaps[i].at - snaps[i - 1].at <= x.maxGapMs
  }

  /** The part of interval i that falls on a day, inside the requested range. */
  function PairMs(x: Inputs, snaps: seq<Snapshot>, i: nat, d: int): int
    requires 0 < i < |snaps|
  {
    if SnapshotPair(x, snaps, i) then Overlap(Max(snaps[i - 1].at, x.from), Min(snaps[i].at, x.to), d) else 0
  }

  datatype Accrual = Accrual(mon: Option<real>, usd: Option<real>, ms: int, weighted: Option<real>, capitalMs: int)

  const NOTHING := Accrual(None, None, 0, None, 0)

  /** The stake and rate recorded at the opening snapshot, over the piece. */
  function StakingMon(x: Inputs, s: Snapshot, ms: int): real
    requires s.stakingApyBps.Some?
  {
    s.stakedMon * x.growth(s.stakingApyBps.value, ms)
  }

  function StakingUsd(x: Inputs, s: Snapshot, ms: int): real
    requires s.stakingApyBps.Some?
  {
    StakingMon(x, s, ms) * s.monPriceUsd
  }

  function WeightedCapital(s: Snapshot, ms: int): real {
    (s.monHeld * s.monPriceUsd + s.shortEquityBookedUsd) * ms as real
  }

  function AddPiece(x: Inputs, a: Accrual, previous: Snapshot, current: Snapshot, ms: int): Accrual {
    var staked := if previous.stakingApyBps.None? then a
                  else a.(mon := Some(Or(a.mon, 0.0) + StakingMon(x, previous, ms)),
                          usd := Some(Or(a.usd, 0.0) + StakingUsd(x, previous, ms)),
                          ms := a.ms + ms);
    if previous.shortBookFresh && current.shortBookFresh
    then staked.(weighted := Some(Or(a.weighted, 0.0) + WeightedCapital(previous, ms)), capitalMs := a.capitalMs + ms)
    else staked
  }

  function AccrualAfter(x: Inputs, snaps: seq<Snapshot>, n: nat, d: int): Accrual
    requires n <= |snaps|
  {
    if n <= 1 then NOTHING
    else
      var before := AccrualAfter(x, snaps, n - 1, d);
      var ms := PairMs(x, snaps, n - 1, d);
      if ms == 0 then before else AddPiece(x, before, snaps[n - 2], snaps[n - 1], ms)
  }

  function WithAccrual(a: Accrual, day: Day): Day {
    day.(stakingEstimatedMon := a.mon, stakingEstimatedUsd := a.usd, stakingCoveredMs := a.ms, capitalCoveredMs := a.capitalMs)
  }

  predicate AccruedTo(rows: Rows, weighted: map<int, real>, base: Rows, d: int, a: Accrual) {
    && d in rows && d in base && rows[d] == WithAccrual(a, base[d])
    && (d in weighted <==> a.weighted.Some?) && (d in weighted ==> weighted[d] == a.weighted.value)
  }

  /** One visit of the source's callback, on the row and the weighted capital of its day. */
  method AccrueVisit(x: Inputs, previous: Snapshot, current: Snapshot, ms: int, day: Day, weighted: Option<real>, ghost a: Accrual, ghost base: Day)
    returns (day': Day, weighted': Option<real>)
    requires day == WithAccrual(a, base) && weighted == a.weighted
    ensures day' == WithAccrual(AddPiece(x, a, previous, current, ms), base)
    ensures weighted' == AddPiece(x, a, previous, current, ms).weighted
  {
    day', weighted' := day, weighted;
    if previous.stakingApyBps.Some? {
      day' := day'.(stakingEstimatedMon := Some(Or(day.stakingEstimatedMon, 0.0) + StakingMon(x, previous, ms)),
                    stakingEstimatedUsd := Some(Or(day.stakingEstimatedUsd, 0.0) + StakingUsd(x, previous, ms)),
                    stakingCoveredMs := day.stakingCoveredMs + ms);
    }
    if previous.shortBookFresh && current.shortBookFresh {
      weighted' := Some(Or(weighted, 0.0) + WeightedCapital(previous, ms));
      day' := day'.(capitalCoveredMs := day.capitalCoveredMs + ms);
    }
  }

  lemma PairStep(x: Inputs, snaps: seq<Snapshot>, i: nat, d: int)
    requires 0 < i < |snaps|
    ensures var ms, before := PairMs(x, snaps, i, d), AccrualAfter(x, snaps, i, d);
            AccrualAfter(x, snaps, i + 1, d) == if ms == 0 then before else AddPiece(x, before, snaps[i - 1], snaps[i], ms)
  {
  }

  /** The days from `first` up to `done` have taken pair i, the others only the pairs before it. */
  ghost predicate AccruedUpTo(x: Inputs, snaps: seq<Snapshot>, i: nat, base: Rows, rows: Rows, weighted: map<int, real>, first: int, done: int)
    requires 0 < i < |snaps|
  {
    forall d :: d in rows ==> AccruedTo(rows, weighted, base, d, AccrualAfter(x, snaps, if first <= d < done then i + 1 else i, d))
  }

  method AccruePair(x: Inputs, snaps: seq<Snapshot>, i: nat, ghost base: Rows, rows: Rows, weighted: map<int, real>)
    returns (rows': Rows, weighted': map<int, real>)
    requires 0 < i < |snaps| && SnapshotPair(x, snaps, i) && base.Keys == rows.Keys
    requires forall d :: d in rows ==> AccruedTo(rows, weighted, base, d, AccrualAfter(x, snaps, i, d))
    ensures rows'.Keys == rows.Keys
    ensures forall d :: d in rows' ==> AccruedTo(rows', weighted', base, d, AccrualAfter(x, snaps, i + 1, d))
  {
    rows', weighted' := rows, weighted;
    var start, end := Max(snaps[i - 1].at, x.from), Min(snaps[i].at, x.to);
    var visits := SplitInterval(start, end);
    ghost var first, total := DayOf(start), |visits|;
    for k := 0 to |visits|
      invariant rows'.Keys == rows.Keys
      invariant AccruedUpTo(x, snaps, i, base, rows', weighted', first, first + k)
    {
      var d := visits[k].date;
      if d in rows' {
        assert AccruedTo(rows', weighted', base, d, AccrualAfter(x, snaps, i, d));
        rows', weighted' := AccrueDay(x, snaps, i, visits[k], base, rows', weighted');
      }
    }
    forall d | d in rows' ensures AccruedTo(rows', weighted', base, d, AccrualAfter(x, snaps, i + 1, d)) {
      assert AccruedTo(rows', weighted', base, d, AccrualAfter(x, snaps, if first <= d < first + total then i + 1 else i, d));
      PairStep(x, snaps, i, d);
    }
  }

  method AccrueDay(x: Inputs, snaps: seq<Snapshot>, i: nat, v: Visit, ghost base: Rows, rows: Rows, weighted: map<int, real>)
    returns (rows': Rows, weighted': map<int, real>)
    requires 0 < i < |snaps| && base.Keys == rows.Keys && v.date in rows
    requires v.ms == PairMs(x, snaps, i, v.date) > 0
    requires AccruedTo(rows, weighted, base, v.date, AccrualAfter(x, snaps, i, v.date))
    ensures rows'.Keys == rows.Keys && AccruedTo(rows', weighted', base, v.date, AccrualAfter(x, snaps, i + 1, v.date))
    ensures forall d :: d != v.date ==> (d in rows ==> rows'[d] == rows[d]) && (d in weighted' <==> d in weighted) && (d in weighted ==> weighted'[d] == weighted[d])
  {
    var day, capital := AccrueVisit(
      x, snaps[i - 1], snaps[i], v.ms, rows[v.date], if v.date in weighted then Some(weighted[v.date]) else None,
      AccrualAfter(x, snaps, i, v.date), base[v.date]);
    PairStep(x, snaps, i, v.date);
    rows' := rows[v.date := day];
    weighted' := if capital.Some? then weighted[v.date := capital.value] else weighted;
  }

  method AccrueIntervals(x: Inputs, snaps: seq<Snapshot>, base: Rows) returns (rows: Rows, weighted: map<int, real>)
    requires forall d :: d in base ==> base[d] == WithAccrual(NOTHING, base[d])
    ensures rows.Keys == base.Keys
    ensures forall d :: d in rows ==> AccruedTo(rows, weighted, base, d, AccrualAfter(x, snaps, |snaps|, d))
  {
    rows, weighted := base, map[];
    var i := 1;
    while i < |snaps|
      invariant 1 <= i && (i <= |snaps| || |snaps| == 0)
      invariant rows.Keys == base.Keys
      invariant forall d :: d in rows ==> AccruedTo(rows, weighted, base, d, AccrualAfter(x, snaps, Min(i, |snaps|), d))
    {
      if SnapshotPair(x, snaps, i) {
        rows, weighted := AccruePair(x, snaps, i, base, rows, weighted);
      } else {
        forall d | d in rows ensures AccruedTo(rows, weighted, base, d, AccrualAfter(x, snaps, i + 1, d)) {
          assert PairMs(x, snaps, i, d) == 0;
        }
      }
      i := i + 1;
    }
  }

  // ---- Settled amounts ----

  predicate Unattributed(e: Event) { e.marketId.None? && e.fundingRaw.Some? && e.fundingRaw.value != 0 }

  predicate UnknownOn(events: seq<Event>, d: int) {
    exists e :: e in events && Unattributed(e) && DayOf(e.at) == d
  }

  function InMarket(events: seq<Event>, market: Option<int>): (r: seq<Event>)
    ensures forall e :: e in r <==> e in events && e.marketId == market
  {
    if events == [] then []
    else
      var m := |events| - 1;
      InMarket(events[..m], market) + (if events[m].marketId == market then [events[m]] else [])
  }

  function SumIfKnown(known: Option<real>, events: seq<Event>, f: Field, w: Window): Option<real> {
    if known.None? then None else Some(Dollars(Total(events, f, w)))
  }

  /** What is settled on a day is the exact sum of that day's raw amounts, or withheld. */
  function WithSettled(x: Inputs, day: Day): Day {
    var w := OnDay(day.date, x.from, x.to);
    var inMarket := InMarket(x.events, x.marketId);
    day.(fundingSettledUsd := if UnknownOn(x.events, day.date) then None else SumIfKnown(day.fundingSettledUsd, FundingOf(x), Funding, w),
         tradingFeesUsd := SumIfKnown(day.tradingFeesUsd, inMarket, Fees, w),
         realisedTradingPnlUsd := SumIfKnown(day.realisedTradingPnlUsd, inMarket, Pnl, w))
  }

  /** The map holds each day's exact total, absent where it is zero. */
  ghost predicate SumsOf(events: seq<Event>, f: Field, x: Inputs, sums: map<int, int>) {
    forall d :: (if d in sums then sums[d] else 0) == Total(events, f, OnDay(d, x.from, x.to))
  }

  /** `addRaw` over a list: per-day exact sums, absent where nothing was added. */
  method SumByDay(x: Inputs, events: seq<Event>, f: Field) returns (sums: map<int, int>)
    ensures SumsOf(events, f, x, sums)
  {
    sums := map[];
    assert events[..0] == [];
    for i := 0 to |events|
      invariant SumsOf(events[..i], f, x, sums)
    {
      var e := events[i];
      assert events[..i + 1][..i] == events[..i];
      if x.from <= e.at <= x.to {
        var d := DayOf(e.at);
        sums := sums[d := (if d in sums then sums[d] else 0) + Raw(e, f)];
      }
    }
    assert events[..|events|] == events;
  }

  /** Nothing settled yet: each figure is zero where history claims the day, or withheld. */
  predicate Unsettled(day: Day) {
    && (day.fundingSettledUsd.Some? ==> day.fundingSettledUsd.value == 0.0)
    && (day.tradingFeesUsd.Some? ==> day.tradingFeesUsd.value == 0.0)
    && (day.realisedTradingPnlUsd.Some? ==> day.realisedTradingPnlUsd.value == 0.0)
  }

  /** An unattributed movement withholds its day. */
  method Withhold(events: seq<Event>, base: Rows) returns (rows: Rows)
    ensures rows.Keys == base.Keys
    ensures forall d :: d in rows ==> rows[d] == if UnknownOn(events, d) then base[d].(fundingSettledUsd := None) else base[d]
  {
    rows := base;
    for i := 0 to |events|
      invariant rows.Keys == base.Keys
      invariant forall d :: d in rows ==> rows[d] == if UnknownOn(events[..i], d) then base[d].(fundingSettledUsd := None) else base[d]
    {
      var e := events[i];
      var d := DayOf(e.at);
      if Unattributed(e) && d in rows { rows := rows[d := rows[d].(fundingSettledUsd := None)]; }
      assert events[..i + 1] == events[..i] + [e];
    }
    assert events[..|events|] == events;
  }

  lemma SumAdded(x: Inputs, events: seq<Event>, f: Field, sums: map<int, int>, known: Option<real>, d: int)
    requires SumsOf(events, f, x, sums) && (known.Some? ==> known.value == 0.0)
    ensures AddSum(known, sums, d) == SumIfKnown(known, events, f, OnDay(d, x.from, x.to))
  {
    assert Dollars(0) == 0.0;
  }

  method Settle(x: Inputs, base: Rows) returns (rows: Rows)
    requires forall d :: d in base ==> base[d].date == d && Unsettled(base[d])
    ensures rows.Keys == base.Keys
    ensures forall d :: d in rows ==> rows[d] == WithSettled(x, base[d])
  {
    var inMarket := InMarket(x.events, x.marketId);
    var funding := SumByDay(x, FundingOf(x), Funding);
    var fees := SumByDay(x, inMarket, Fees);
    var pnl := SumByDay(x, inMarket, Pnl);
    var summed := map d | d in base :: AddSums(base[d], funding, fees, pnl);
    rows := Withhold(x.events, summed);
    forall d | d in rows ensures rows[d] == WithSettled(x, base[d]) {
      SumAdded(x, FundingOf(x), Funding, funding, base[d].fundingSettledUsd, d);
      SumAdded(x, inMarket, Fees, fees, base[d].tradingFeesUsd, d);
      SumAdded(x, inMarket, Pnl, pnl, base[d].realisedTradingPnlUsd, d);
    }
  }

  function AddSums(day: Day, funding: map<int, int>, fees: map<int, int>, pnl: map<int, int>): Day {
    day.(fundingSettledUsd := AddSum(day.fundingSettledUsd, funding, day.date),
         tradingFeesUsd := AddSum(day.tradingFeesUsd, fees, day.date),
         realisedTradingPnlUsd := AddSum(day.realisedTradingPnlUsd, pnl, day.date))
  }

  function AddSum(known: Option<real>, sums: map<int, int>, d: int): Option<real> {
    if known.Some? && d in sums then Some(Dollars(sums[d])) else known
  }

  // ---- Observed funding ----

  predicate UnknownBetween(events: seq<Event>, start: int, end: int) {
    exists e :: e in events && Unattributed(e) && start < e.at <= end
  }

  /** When the movement between two neighbouring observations may be reported. */
  predicate Accepted(x: Inputs, obs: seq<Observation>, i: nat)
    requires 0 < i < |obs|
  {
    var previous, current := obs[i - 1], obs[i];
    && current.scope == previous.scope
    && previous.at < current.at && current.at - previous.at <= x.maxGapMs
    && x.from <= previous.at && current.at <= x.to
    && x.fundingThrough.Some? && current.at <= x.fundingThrough.value
    && previous.openFundingUsd.Some? && current.openFundingUsd.Some?
    && !UnknownBetween(x.events, previous.at, current.at)
  }

  /** Settled in the interval, plus the change in what is still open. */
  function Delta(x: Inputs, obs: seq<Observation>, i: nat): real
    requires 0 < i < |obs| && Accepted(x, obs, i)
  {
    Dollars(Total(FundingOf(x), Funding, Between(obs[i - 1].at, obs[i].at)))
    + obs[i].openFundingUsd.value - obs[i - 1].openFundingUsd.value
  }

  function ObservedAfter(x: Inputs, obs: seq<Observation>, n: nat, d: int): Option<real>
    requires n <= |obs|
  {
    if n <= 1 then None
    else
      var before := ObservedAfter(x, obs, n - 1, d);
      if Accepted(x, obs, n - 1) && DayOf(obs[n - 1].at) == d then Some(Or(before, 0.0) + Delta(x, obs, n - 1)) else before
  }

  function ObservedMsAfter(x: Inputs, obs: seq<Observation>, n: nat, d: int): int
    requires n <= |obs|
  {
    if n <= 1 then 0
    else ObservedMsAfter(x, obs, n - 1, d) + (if Accepted(x, obs, n - 1) then Overlap(obs[n - 2].at, obs[n - 1].at, d) else 0)
  }

  function WithObserved(x: Inputs, obs: seq<Observation>, n: nat, day: Day): Day
    requires n <= |obs|
  {
    day.(fundingObservedUsd := ObservedAfter(x, obs, n, day.date), fundingObservedMs := ObservedMsAfter(x, obs, n, day.date))
  }

  method SettledBetween(events: seq<Event>, start: int, end: int) returns (settled: int)
    ensures settled == Total(events, Funding, Between(start, end))
  {
    settled := 0;
    assert events[..0] == [];
    for i := 0 to |events|
      invariant settled == Total(events[..i], Funding, Between(start, end))
    {
      assert events[..i + 1][..i] == events[..i];
      if start < events[i].at <= end { settled := settled + Raw(events[i], Funding); }
    }
    assert events[..|events|] == events;
  }

  /** Adds an interval's milliseconds to every day it touches. */
  method Cover(start: int, end: int, base: Rows) returns (rows: Rows)
    ensures rows.Keys == base.Keys
    ensures forall d :: d in rows ==> rows[d] == base[d].(fundingObservedMs := base[d].fundingObservedMs + Overlap(start, end, d))
  {
    rows := base;
    var visits := SplitInterval(start, end);
    for k := 0 to |visits|
      invariant rows.Keys == base.Keys
      invariant forall d :: d in rows && DayOf(start) <= d < DayOf(start) + k ==>
        rows[d] == base[d].(fundingObservedMs := base[d].fundingObservedMs + Overlap(start, end, d))
      invariant forall d :: d in rows && !(DayOf(start) <= d < DayOf(start) + k) ==> rows[d] == base[d]
    {
      var v := visits[k];
      if v.date in rows {
        rows := rows[v.date := rows[v.date].(fundingObservedMs := rows[v.date].fundingObservedMs + v.ms)];
      }
    }
  }

  method ObservePair(x: Inputs, obs: seq<Observation>, i: nat, ghost base: Rows, rows: Rows) returns (rows': Rows)
    requires 0 < i < |obs| && Accepted(x, obs, i) && base.Keys == rows.Keys
    requires forall d :: d in base ==> base[d].date == d
    requires forall d :: d in rows ==> rows[d] == WithObserved(x, obs, i, base[d])
    ensures rows'.Keys == rows.Keys
    ensures forall d :: d in rows' ==> rows'[d] == WithObserved(x, obs, i + 1, base[d])
  {
    var start, end := obs[i - 1].at, obs[i].at;
    var settled := SettledBetween(FundingOf(x), start, end);
    var delta := Dollars(settled) + obs[i].openFundingUsd.value - obs[i - 1].openFundingUsd.value;
    // The change is assigned whole to the closing observation's day.
    var closing := DayOf(end);
    var paid := rows;
    if closing in paid {
      paid := paid[closing := paid[closing].(fundingObservedUsd := Some(Or(paid[closing].fundingObservedUsd, 0.0) + delta))];
    }
    rows' := Cover(start, end, paid);
    forall d | d in rows' ensures rows'[d] == WithObserved(x, obs, i + 1, base[d]) {
      assert rows[d] == WithObserved(x, obs, i, base[d]);
      ObservedStep(x, obs, i, d, delta);
    }
  }

  lemma ObservedStep(x: Inputs, obs: seq<Observation>, i: nat, d: int, delta: real)
    requires 0 < i < |obs| && Accepted(x, obs, i) && delta == Delta(x, obs, i)
    ensures ObservedAfter(x, obs, i + 1, d) == if DayOf(obs[i].at) == d then Some(Or(ObservedAfter(x, obs, i, d), 0.0) + delta) else ObservedAfter(x, obs, i, d)
    ensures ObservedMsAfter(x, obs, i + 1, d) == ObservedMsAfter(x, obs, i, d) + Overlap(obs[i - 1].at, obs[i].at, d)
  {
  }

  method Observe(x: Inputs, obs: seq<Observation>, base: Rows) returns (rows: Rows)
    requires forall d :: d in base ==> base[d].date == d && base[d].fundingObservedUsd.None? && base[d].fundingObservedMs == 0
    ensures rows.Keys == base.Keys
    ensures forall d :: d in rows ==> rows[d] == WithObserved(x, obs, |obs|, base[d])
  {
    rows := base;
    var i := 1;
    while i < |obs|
      invariant 1 <= i && (i <= |obs| || |obs| == 0)
      invariant rows.Keys == base.Keys
      invariant forall d :: d in rows ==> rows[d] == WithObserved(x, obs, Min(i, |obs|), base[d])
    {
      if Accepted(x, obs, i) {
        rows := ObservePair(x, obs, i, base, rows);
      }
      i := i + 1;
    }
  }

  // ---- The finished row ----

  function Finish(x: Inputs, weighted: Option<real>, day: Day): Day {
    var end := (day.date + 1) * DAY;
    day.(capitalInUseUsd := if day.capitalCoveredMs > 0 && weighted.Some? then Some(weighted.value / day.capitalCoveredMs as real) else None,
         strategyIncomeEstimatedUsd :=
           if day.stakingEstimatedUsd.Some? && day.fundingObservedUsd.Some?
           then Some(day.stakingEstimatedUsd.value + day.fundingObservedUsd.value) else None,
         partial := x.to < end || day.stakingCoveredMs < DAY || day.fundingObservedMs < DAY
                    || day.fundingSettledUsd.None? || day.tradingFeesUsd.None?)
  }

  function DayRow(x: Inputs, d: int): Day {
    var snaps, obs := SnapshotsOf(x), ObservationsOf(x);
    var a := AccrualAfter(x, snaps, |snaps|, d);
    var marked := WithReturn(x, snaps, |snaps|, Blank(x, d));
    Finish(x, a.weighted, WithObserved(x, obs, |obs|, WithSettled(x, WithAccrual(a, marked))))
  }

  lemma BlankShape(x: Inputs, snaps: seq<Snapshot>, d: int)
    ensures var m := WithReturn(x, snaps, |snaps|, Blank(x, d));
            m.date == d && Unsettled(m) && m == WithAccrual(NOTHING, m) && m.fundingObservedUsd.None? && m.fundingObservedMs == 0
  {
  }

  /** The phases in the source's order, up to the last pass over the rows. */
  method Project(x: Inputs) returns (rows: Rows, weighted: map<int, real>)
    ensures forall d :: d in rows <==> Reported(x, d)
    ensures forall d :: d in rows ==> Finish(x, if d in weighted then Some(weighted[d]) else None, rows[d]) == DayRow(x, d)
  {
    var snaps, obs := SnapshotsOf(x), ObservationsOf(x);
    var blank := BlankRows(x);
    var marked := MarkReturns(x, snaps, blank);
    forall d | d in marked
      ensures marked[d] == WithReturn(x, snaps, |snaps|, Blank(x, d)) && marked[d] == WithAccrual(NOTHING, marked[d])
      ensures marked[d].date == d && Unsettled(marked[d])
      ensures marked[d].fundingObservedUsd.None? && marked[d].fundingObservedMs == 0
    {
      assert ReadTo(x, snaps, |snaps|, marked, blank, d);
      BlankShape(x, snaps, d);
    }
    var accrued, w := AccrueIntervals(x, snaps, marked);
    forall d | d in accrued ensures accrued[d] == WithAccrual(AccrualAfter(x, snaps, |snaps|, d), marked[d]) {
      assert AccruedTo(accrued, w, marked, d, AccrualAfter(x, snaps, |snaps|, d));
    }
    var settled := Settle(x, accrued);
    rows := Observe(x, obs, settled);
    weighted := w;
    forall d | d in rows ensures Finish(x, if d in weighted then Some(weighted[d]) else None, rows[d]) == DayRow(x, d) {
      assert AccruedTo(accrued, w, marked, d, AccrualAfter(x, snaps, |snaps|, d));
    }
  }

  /** The whole projection: one row per day of the range, in order, each as its day alone demands. */
  method AccountingDaily(x: Inputs) returns (days: seq<Day>)
    ensures |days| == Max(0, DayOf(x.to) - DayOf(x.from) + 1)
    ensures forall k :: 0 <= k < |days| ==> days[k] == DayRow(x, DayOf(x.from) + k)
  {
    var rows, weighted := Project(x);
    days := [];
    var d := DayOf(x.from);
    while d <= DayOf(x.to)
      invariant |days| == d - DayOf(x.from) && d <= Max(DayOf(x.to) + 1, DayOf(x.from))
      invariant forall k :: 0 <= k < |days| ==> days[k] == DayRow(x, DayOf(x.from) + k)
    {
      assert Reported(x, d);
      days := days + [Finish(x, if d in weighted then Some(weighted[d]) else None, rows[d])];
      d := d + 1;
    }
  }
}

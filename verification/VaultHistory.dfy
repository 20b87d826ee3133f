/** What the vault page draws from the daily rows: where a line may run on, what it starts from, and what it leaves off the axis. */
module VaultHistory {
  import opened Options
  import opened AccountingMath
  import opened AccountingDaily
  import opened AccountingTheorems

  // ---- Runs ----

  function Flat<P>(runs: seq<seq<P>>): seq<P> { if runs == [] then [] else Flat(runs[..|runs| - 1]) + runs[|runs| - 1] }

  /** Inside a run each point joins the one before. */
  predicate Connected<P>(run: seq<P>, joins: (P, P) -> bool) {
    run != [] && forall k :: 0 < k < |run| ==> joins(run[k - 1], run[k])
  }

  /** The runs hold the points in order, are connected, and could not be longer. */
  ghost predicate Partition<P>(points: seq<P>, runs: seq<seq<P>>, joins: (P, P) -> bool) {
    && Flat(runs) == points
    && (forall r :: 0 <= r < |runs| ==> Connected(runs[r], joins))
    && (forall r :: 0 < r < |runs| ==> !joins(runs[r - 1][|runs[r - 1]| - 1], runs[r][0]))
  }

  lemma {:induction false} PartitionEnds<P>(points: seq<P>, runs: seq<seq<P>>, joins: (P, P) -> bool)
    requires Partition(points, runs, joins)
    ensures points == [] <==> runs == []
    ensures runs != [] ==> runs[|runs| - 1] != [] && points[|points| - 1] == runs[|runs| - 1][|runs[|runs| - 1]| - 1]
  {
    if runs != [] {
      assert Connected(runs[|runs| - 1], joins);
    }
  }

  /** A point that joins the last one extends the last run. */
  lemma {:induction false} PartitionExtends<P>(points: seq<P>, runs: seq<seq<P>>, p: P, joins: (P, P) -> bool)
    requires Partition(points, runs, joins) && points != [] && joins(points[|points| - 1], p)
    ensures runs != [] && Partition(points + [p], runs[|runs| - 1 := runs[|runs| - 1] + [p]], joins)
  {
    PartitionEnds(points, runs, joins);
    var n := |runs|;
    var longer := runs[n - 1 := runs[n - 1] + [p]];
    assert longer[..n - 1] == runs[..n - 1];
    assert Flat(longer) == points + [p];
    assert Connected(runs[n - 1], joins);
    assert Connected(longer[n - 1], joins);
  }

  /** Any other opens a new run. */
  lemma {:induction false} PartitionOpens<P>(points: seq<P>, runs: seq<seq<P>>, p: P, joins: (P, P) -> bool)
    requires Partition(points, runs, joins) && (points == [] || !joins(points[|points| - 1], p))
    ensures Partition(points + [p], runs + [[p]], joins)
  {
    PartitionEnds(points, runs, joins);
    var longer := runs + [[p]];
    assert longer[..|runs|] == runs;
    assert Flat(longer) == points + [p];
  }

  /** The runs with one point more. */
  function Added<P>(ghost points: seq<P>, runs: seq<seq<P>>, p: P, ghost joins: (P, P) -> bool, opens: bool): (longer: seq<seq<P>>)
    requires Partition(points, runs, joins) && (opens <==> points == [] || !joins(points[|points| - 1], p))
    ensures Partition(points + [p], longer, joins)
  {
    if opens then
      PartitionOpens(points, runs, p, joins);
      runs + [[p]]
    else
      PartitionExtends(points, runs, p, joins);
      runs[|runs| - 1 := runs[|runs| - 1] + [p]]
  }

  /** The last run is a tail of the points, and the point before it does not join it. */
  lemma {:induction false} LastRunStarts<P>(points: seq<P>, runs: seq<seq<P>>, joins: (P, P) -> bool)
    requires Partition(points, runs, joins) && runs != []
    ensures var last := runs[|runs| - 1];
            var cut := |points| - |last|;
            0 <= cut < |points| && points[..cut] == Flat(runs[..|runs| - 1]) && points[cut..] == last && (cut > 0 ==> !joins(points[cut - 1], points[cut]))
  {
    var m := |runs| - 1;
    assert Connected(runs[m], joins);
    if m > 0 {
      assert Connected(runs[m - 1], joins) && runs[..m][m - 1] == runs[m - 1];
      assert Flat(runs[..m]) == Flat(runs[..m][..m - 1]) + runs[m - 1];
    }
  }

  lemma {:induction false} TailJoins<P>(points: seq<P>, last: seq<P>, joins: (P, P) -> bool, cut: nat, t: nat)
    requires cut < t < |points| && points[cut..] == last && Connected(last, joins)
    ensures joins(points[t - 1], points[t])
  {
    assert points[t - 1] == last[t - 1 - cut] && points[t] == last[t - cut];
  }

  /** Two partitions cannot disagree where the last run starts: one of them would join what the other keeps apart. */
  lemma {:induction false} TailNoShorter<P>(points: seq<P>, a: seq<seq<P>>, b: seq<seq<P>>, joins: (P, P) -> bool)
    requires Partition(points, a, joins) && Partition(points, b, joins) && a != [] && b != []
    ensures |a[|a| - 1]| >= |b[|b| - 1]|
  {
    LastRunStarts(points, a, joins);
    LastRunStarts(points, b, joins);
    var last := b[|b| - 1];
    assert Connected(last, joins);
    var cut: nat, t: nat := |points| - |last|, |points| - |a[|a| - 1]|;
    if cut < t {
      TailJoins(points, last, joins, cut, t);
    }
  }

  lemma {:induction false} SameTail<P>(points: seq<P>, a: seq<seq<P>>, b: seq<seq<P>>, joins: (P, P) -> bool)
    requires Partition(points, a, joins) && Partition(points, b, joins) && a != [] && b != []
    ensures a[|a| - 1] == b[|b| - 1] && Flat(a[..|a| - 1]) == Flat(b[..|b| - 1])
  {
    TailNoShorter(points, a, b, joins);
    TailNoShorter(points, b, a, joins);
    LastRunStarts(points, a, joins);
    LastRunStarts(points, b, joins);
  }

  lemma {:induction false} PartitionFront<P>(points: seq<P>, runs: seq<seq<P>>, joins: (P, P) -> bool)
    requires Partition(points, runs, joins) && runs != []
    ensures Partition(Flat(runs[..|runs| - 1]), runs[..|runs| - 1], joins) && runs == runs[..|runs| - 1] + [runs[|runs| - 1]]
  {
  }

  /** The points being fixed, so are the runs. */
  lemma {:induction false} PartitionUnique<P>(points: seq<P>, a: seq<seq<P>>, b: seq<seq<P>>, joins: (P, P) -> bool)
    requires Partition(points, a, joins) && Partition(points, b, joins)
    ensures a == b
    decreases |a|
  {
    PartitionEnds(points, a, joins);
    PartitionEnds(points, b, joins);
    if a != [] {
      SameTail(points, a, b, joins);
      PartitionFront(points, a, joins);
      PartitionFront(points, b, joins);
      PartitionUnique(Flat(a[..|a| - 1]), a[..|a| - 1], b[..|b| - 1], joins);
    }
  }

  // ---- Return runs ----

  datatype ReturnPoint = ReturnPoint(index: nat, value: real, segment: nat)

  function RecordedReturn(day: Day): Option<real> {
    if day.shortBookFresh == Some(true) && day.pricePerShareUsd.Some? && day.pricePerShareUsd.value > 0.0 then day.vaultReturnPct else None
  }

  predicate HasReturn(day: Day) { RecordedReturn(day).Some? && day.returnSegment.Some? }

  function ReturnPointOf(day: Day, index: nat): ReturnPoint
    requires HasReturn(day)
  {
    ReturnPoint(index, RecordedReturn(day).value, day.returnSegment.value)
  }

  /** The days with a recorded return, in order. */
  function ReturnPoints(days: seq<Day>): seq<ReturnPoint> {
    if days == [] then []
    else
      var n := |days| - 1;
      ReturnPoints(days[..n]) + (if HasReturn(days[n]) then [ReturnPointOf(days[n], n)] else [])
  }

  /** The next day of the same segment. */
  function SameSegment(): (ReturnPoint, ReturnPoint) -> bool { (a: ReturnPoint, b: ReturnPoint) => b.index == a.index + 1 && b.segment == a.segment }

  method ReturnRuns(days: seq<Day>) returns (runs: seq<seq<ReturnPoint>>)
    ensures Partition(ReturnPoints(days), runs, SameSegment())
  {
    runs := [];
    var previousSegment: Option<nat> := None;
    var previousIndex: int := -2;
    for index := 0 to |days|
      invariant Partition(ReturnPoints(days[..index]), runs, SameSegment())
      invariant var points := ReturnPoints(days[..index]);
                if points == [] then previousIndex == -2 && previousSegment.None?
                else points[|points| - 1].index == previousIndex && Some(points[|points| - 1].segment) == previousSegment
    {
      assert days[..index + 1][..index] == days[..index];
      var day := days[index];
      if HasReturn(day) {
        var p := ReturnPointOf(day, index);
        var opens := index != previousIndex + 1 || day.returnSegment != previousSegment;
        runs := Added(ReturnPoints(days[..index]), runs, p, SameSegment(), opens);
        previousSegment, previousIndex := day.returnSegment, index;
      }
    }
    assert days[..|days|] == days;
  }

  lemma {:induction false} PointsAreDays(days: seq<Day>, p: ReturnPoint)
    requires p in ReturnPoints(days)
    ensures p.index < |days| && HasReturn(days[p.index]) && p == ReturnPointOf(days[p.index], p.index)
  {
    var n := |days| - 1;
    if p in ReturnPoints(days[..n]) {
      PointsAreDays(days[..n], p);
    }
  }

  lemma {:induction false} FlatHas<P>(runs: seq<seq<P>>, r: nat, k: nat)
    requires r < |runs| && k < |runs[r]|
    ensures runs[r][k] in Flat(runs)
  {
    var n := |runs| - 1;
    if r < n {
      FlatHas(runs[..n], r, k);
    }
  }

  lemma {:induction false} RunSharesSegment(run: seq<ReturnPoint>, k: nat)
    requires Connected(run, SameSegment()) && k < |run|
    ensures run[k].segment == run[0].segment && run[k].index == run[0].index + k
  {
    if k > 0 { RunSharesSegment(run, k - 1); }
  }

  lemma {:induction false} DrawnPoint(days: seq<Day>, runs: seq<seq<ReturnPoint>>, r: nat, i: nat)
    requires Partition(ReturnPoints(days), runs, SameSegment()) && r < |runs| && i < |runs[r]|
    ensures var p := runs[r][i];
            && p.index < |days| && days[p.index].returnSegment == Some(p.segment) && days[p.index].vaultReturnPct == Some(p.value)
            && p.segment == runs[r][0].segment && p.index == runs[r][0].index + i
  {
    assert Connected(runs[r], SameSegment());
    FlatHas(runs, r, i);
    PointsAreDays(days, runs[r][i]);
    RunSharesSegment(runs[r], i);
  }

  /** The rows are the ones accountingDaily reports. */
  ghost predicate Reports(x: Inputs, days: seq<Day>) { forall k :: 0 <= k < |days| ==> IsRow(x, k, days[k]) }

  ghost predicate IsRow(x: Inputs, k: nat, row: Day) { row == DayRow(x, DayOf(x.from) + k) }

  /**
   Along one drawn line the values are the recorded returns of consecutive days, and any two of them stand
   in the ratio of the share prices: the chart never joins days measured from different baselines.
   */
  lemma {:induction false} DrawnReturnsComparable(x: Inputs, days: seq<Day>, runs: seq<seq<ReturnPoint>>, r: nat, i: nat, j: nat)
    requires Reports(x, days) && Partition(ReturnPoints(days), runs, SameSegment())
    requires r < |runs| && i < |runs[r]| && j < |runs[r]|
    ensures var p, q := runs[r][i], runs[r][j];
            && p.index < |days| && q.index < |days| && q.index - p.index == j - i
            && days[p.index].vaultReturnPct == Some(p.value) && days[q.index].vaultReturnPct == Some(q.value)
            && Comparable(days[p.index], days[q.index])
  {
    DrawnPoint(days, runs, r, i);
    DrawnPoint(days, runs, r, j);
    var a, b := runs[r][i].index, runs[r][j].index;
    assert IsRow(x, a, days[a]) && IsRow(x, b, days[b]);
    SegmentComparable(x, days, a, b);
  }

  lemma SegmentComparable(x: Inputs, days: seq<Day>, a: nat, b: nat)
    requires a < |days| && b < |days| && IsRow(x, a, days[a]) && IsRow(x, b, days[b])
    requires days[a].returnSegment.Some? && days[a].returnSegment == days[b].returnSegment
    ensures Comparable(days[a], days[b])
  {
    RowsComparable(x, DayOf(x.from) + a, DayOf(x.from) + b, days[a], days[b]);
  }

  // ---- Runs of income points ----

  datatype IncomePoint = IncomePoint(index: nat, funding: real, staking: real, partial: bool)

  datatype StrategyPoint = StrategyPoint(index: nat, value: real, incomeUsd: real, partial: bool)

  function Present<P>(points: seq<Option<P>>): seq<P> {
    if points == [] then []
    else
      var n := |points| - 1;
      Present(points[..n]) + (if points[n].Some? then [points[n].value] else [])
  }

  function NextIndex<P>(index: P -> nat): (P, P) -> bool { (a: P, b: P) => index(b) == index(a) + 1 }

  /** Contiguous paths; the same loop serves strategy and income points. */
  method IndexRuns<P>(points: seq<Option<P>>, index: P -> nat) returns (runs: seq<seq<P>>)
    ensures Partition(Present(points), runs, NextIndex(index))
  {
    runs := [];
    var previousIndex: int := -2;
    for k := 0 to |points|
      invariant Partition(Present(points[..k]), runs, NextIndex(index))
      invariant var seen := Present(points[..k]); previousIndex == if seen == [] then -2 else index(seen[|seen| - 1])
    {
      PresentNext(points, k);
      if points[k].Some? {
        var p := points[k].value;
        runs := Added(Present(points[..k]), runs, p, NextIndex(index), index(p) != previousIndex + 1);
        previousIndex := index(p);
      }
    }
    assert points[..|points|] == points;
  }

  lemma PresentNext<P>(points: seq<Option<P>>, k: nat)
    requires k < |points|
    ensures Present(points[..k + 1]) == Present(points[..k]) + (if points[k].Some? then [points[k].value] else [])
  {
    assert points[..k + 1][..k] == points[..k];
  }

  // ---- Income to date ----

  function OrZero(v: Option<real>): real { if v.Some? then v.value else 0.0 }

  // What a reader expects of a point, told from the fields of the days; the loops below do not use these.

  ghost predicate HasBoth(day: Day) { day.fundingObservedUsd.Some? && day.stakingEstimatedUsd.Some? }

  ghost predicate FullyCovered(day: Day) { HasBoth(day) && day.stakingCoveredMs >= 86_400_000 && day.fundingObservedMs >= 86_400_000 }

  datatype View = Observed | Settled

  ghost function FundingValue(day: Day, view: View): Option<real> { if view.Settled? then day.fundingSettledUsd else day.fundingObservedUsd }

  ghost predicate HasEither(day: Day, view: View) { FundingValue(day, view).Some? || day.stakingEstimatedUsd.Some? }

  /** Both components are there, and both observed stretches fill the day. */
  ghost predicate Complete(day: Day, view: View) {
    FundingValue(day, view).Some? && day.stakingEstimatedUsd.Some? && day.fundingObservedMs >= 86_400_000 && day.stakingCoveredMs >= 86_400_000
  }

  ghost function SumOver(days: seq<Day>, f: Day -> real): real { if days == [] then 0.0 else SumOver(days[..|days| - 1], f) + f(days[|days| - 1]) }

  ghost function FundingIfBoth(): Day -> real { (d: Day) => if HasBoth(d) then d.fundingObservedUsd.value else 0.0 }

  ghost function StakingIfBoth(): Day -> real { (d: Day) => if HasBoth(d) then d.stakingEstimatedUsd.value else 0.0 }

  ghost function Income(view: View): Day -> real { (d: Day) => OrZero(FundingValue(d, view)) + OrZero(d.stakingEstimatedUsd) }

  /** Day k's point: everything recorded up to it, marked partial as soon as any day so far was missing or not fully covered. */
  ghost predicate CumulativeAt(days: seq<Day>, points: seq<Option<IncomePoint>>, k: nat)
    requires k < |days| && k < |points|
  {
    && (points[k].Some? <==> HasBoth(days[k]))
    && (points[k].Some? ==>
          points[k].value == IncomePoint(k, SumOver(days[..k + 1], FundingIfBoth()), SumOver(days[..k + 1], StakingIfBoth()), points[k].value.partial)
          && (points[k].value.partial <==> exists j :: 0 <= j <= k && !FullyCovered(days[j])))
  }

  method CumulativeIncome(days: seq<Day>) returns (points: seq<Option<IncomePoint>>)
    ensures |points| == |days| && forall k :: 0 <= k < |days| ==> CumulativeAt(days, points, k)
  {
    var funding, staking, partial := 0.0, 0.0, false;
    points := [];
    for index := 0 to |days|
      invariant |points| == index
      invariant funding == SumOver(days[..index], FundingIfBoth()) && staking == SumOver(days[..index], StakingIfBoth())
      invariant partial <==> exists j :: 0 <= j < index && !FullyCovered(days[j])
      invariant forall k :: 0 <= k < index ==> CumulativeAt(days, points, k)
    {
      assert days[..index + 1][..index] == days[..index];
      var day := days[index];
      ghost var before := points;
      if day.fundingObservedUsd.None? || day.stakingEstimatedUsd.None? {
        partial := true;
        assert !FullyCovered(days[index]);
        points := points + [None];
      } else {
        funding := funding + day.fundingObservedUsd.value;
        staking := staking + day.stakingEstimatedUsd.value;
        assert (day.stakingCoveredMs < DAY || day.fundingObservedMs < DAY) <==> !FullyCovered(days[index]);
        partial := partial || day.stakingCoveredMs < DAY || day.fundingObservedMs < DAY;
        points := points + [Some(IncomePoint(index, funding, staking, partial))];
      }
      forall k | 0 <= k < index + 1 ensures CumulativeAt(days, points, k) {
        if k < index { assert CumulativeAt(days, before, k); }
      }
    }
  }

  /** Some component was recorded by day k. */
  ghost predicate StartedBy(days: seq<Day>, view: View, k: int) {
    exists j :: 0 <= j <= k && j < |days| && HasEither(days[j], view)
  }

  /** A day since then is missing something or not fully observed. */
  ghost predicate GapBy(days: seq<Day>, view: View, k: int) {
    exists j :: 0 <= j <= k && j < |days| && StartedBy(days, view, j) && !Complete(days[j], view)
  }

  /** Day k's point: income to date over the capital, from the first day with any component on; a missing component is left out and flagged. */
  ghost predicate StrategyAt(days: seq<Day>, capital: real, view: View, points: seq<Option<StrategyPoint>>, k: nat)
    requires k < |days| && k < |points| && capital > 0.0
  {
    && (points[k].Some? <==> StartedBy(days, view, k))
    && (points[k].Some? ==>
          && points[k].value.index == k && points[k].value.incomeUsd == SumOver(days[..k + 1], Income(view))
          && points[k].value.value == points[k].value.incomeUsd / capital * 100.0
          && (points[k].value.partial <==> GapBy(days, view, k)))
  }

  method StrategyReturn(days: seq<Day>, capital: Option<real>, view: View) returns (points: seq<Option<StrategyPoint>>)
    ensures |points| == |days|
    ensures capital.None? || capital.value <= 0.0 ==> forall k :: 0 <= k < |days| ==> points[k].None?
    ensures capital.Some? && capital.value > 0.0 ==> forall k :: 0 <= k < |days| ==> StrategyAt(days, capital.value, view, points, k)
  {
    if capital.None? || capital.value <= 0.0 {
      return seq(|days|, _ => None);
    }
    var income, seen, partial := 0.0, false, false;
    points := [];
    for index := 0 to |days|
      invariant |points| == index
      invariant income == SumOver(days[..index], Income(view))
      invariant seen <==> StartedBy(days, view, index - 1)
      invariant partial <==> GapBy(days, view, index - 1)
      invariant forall k :: 0 <= k < index ==> StrategyAt(days, capital.value, view, points, k)
    {
      assert days[..index + 1][..index] == days[..index];
      var day := days[index];
      var funding := if view.Settled? then day.fundingSettledUsd else day.fundingObservedUsd;
      ghost var before := points;
      GapStep(days, view, index);
      if funding.None? && day.stakingEstimatedUsd.None? {
        partial := partial || seen;
        points := points + [if seen then Some(StrategyPoint(index, income / capital.value * 100.0, income, partial)) else None];
      } else {
        seen := true;
        income := income + (OrZero(funding) + OrZero(day.stakingEstimatedUsd));
        partial := partial || funding.None? || day.stakingEstimatedUsd.None? || day.fundingObservedMs < DAY || day.stakingCoveredMs < DAY;
        points := points + [Some(StrategyPoint(index, income / capital.value * 100.0, income, partial))];
      }
      forall k | 0 <= k < index + 1 ensures StrategyAt(days, capital.value, view, points, k) {
        if k < index { assert StrategyAt(days, capital.value, view, before, k); }
      }
    }
  }

  lemma {:induction false} GapStep(days: seq<Day>, view: View, k: nat)
    requires k < |days|
    ensures StartedBy(days, view, k) <==> StartedBy(days, view, k - 1) || HasEither(days[k], view)
    ensures GapBy(days, view, k) <==> GapBy(days, view, k - 1) || (StartedBy(days, view, k) && !Complete(days[k], view))
  {
  }

  lemma {:induction false} SumsAgree(days: seq<Day>)
    requires forall k :: 0 <= k < |days| ==> HasBoth(days[k])
    ensures SumOver(days, Income(Observed)) == SumOver(days, FundingIfBoth()) + SumOver(days, StakingIfBoth())
  {
    if days != [] { SumsAgree(days[..|days| - 1]); }
  }

  /** While nothing is missing the two views tell the same income: the return is the cumulative income over the capital. */
  lemma {:induction false} ViewsAgree(days: seq<Day>, capital: real, cumulative: seq<Option<IncomePoint>>, strategy: seq<Option<StrategyPoint>>, k: nat)
    requires k < |days| == |cumulative| == |strategy| && capital > 0.0
    requires CumulativeAt(days, cumulative, k) && StrategyAt(days, capital, Observed, strategy, k)
    requires forall j :: 0 <= j <= k ==> HasBoth(days[j])
    ensures cumulative[k].Some? && strategy[k].Some?
    ensures strategy[k].value.incomeUsd == cumulative[k].value.funding + cumulative[k].value.staking
    ensures strategy[k].value.value * capital == (cumulative[k].value.funding + cumulative[k].value.staking) * 100.0
  {
    assert HasBoth(days[k]) && HasEither(days[k], Observed);
    SumsAgree(days[..k + 1]);
    Percent(strategy[k].value.incomeUsd, capital);
  }

  lemma Percent(income: real, capital: real)
    requires capital > 0.0
    ensures income / capital * 100.0 * capital == income * 100.0
  {
    assert income / capital * capital == income;
    assert income / capital * 100.0 * capital == (income / capital * capital) * 100.0;
  }

  // ---- What the axis leaves off ----

  predicate HasReading(day: Day) { day.snapshotAt.Some? || day.fundingObservedUsd.Some? || day.stakingEstimatedUsd.Some? }

  /** The day has a snapshot, an observed movement or a staking estimate. */
  ghost predicate Tells(day: Day) { day.snapshotAt != None || day.fundingObservedUsd != None || day.stakingEstimatedUsd != None }

  /** The first day with a reading, if any. */
  function FirstReading(days: seq<Day>): (first: Option<nat>)
    ensures first.Some? ==> first.value < |days| && Tells(days[first.value])
    ensures forall k :: 0 <= k < (if first.Some? then first.value else |days|) ==> !Tells(days[k])
  {
    if days == [] then None
    else if HasReading(days[0]) then Some(0)
    else
      var rest := FirstReading(days[1..]);
      if rest.None? then None else Some(rest.value + 1)
  }

  function TrimToRecorded(days: seq<Day>): seq<Day> {
    var first := FirstReading(days);
    if first.None? || first.value == 0 then days else days[first.value..]
  }

  ghost function SettledOf(): Day -> real { (d: Day) => OrZero(d.fundingSettledUsd) }

  ghost function FeesOf(): Day -> real { (d: Day) => OrZero(d.tradingFeesUsd) }

  datatype Before = Before(funding: real, fees: real)

  method SettledBefore(days: seq<Day>) returns (before: Option<Before>)
    ensures var first := FirstReading(days);
            var dropped := if first.Some? then days[..first.value] else [];
            && (before.None? <==> SumOver(dropped, SettledOf()) == 0.0 && SumOver(dropped, FeesOf()) == 0.0)
            && (before.Some? ==> before.value == Before(SumOver(dropped, SettledOf()), SumOver(dropped, FeesOf())))
  {
    var first := FirstReading(days);
    if first.None? || first.value == 0 {
      return None;
    }
    var dropped := days[..first.value];
    var funding, fees := 0.0, 0.0;
    for i := 0 to |dropped|
      invariant funding == SumOver(dropped[..i], SettledOf()) && fees == SumOver(dropped[..i], FeesOf())
    {
      assert dropped[..i + 1][..i] == dropped[..i];
      funding := funding + OrZero(dropped[i].fundingSettledUsd);
      fees := fees + OrZero(dropped[i].tradingFeesUsd);
    }
    assert dropped[..|dropped|] == dropped;
    before := if funding == 0.0 && fees == 0.0 then None else Some(Before(funding, fees));
  }

  lemma {:induction false} SumSplits(a: seq<Day>, b: seq<Day>, f: Day -> real)
    ensures SumOver(a + b, f) == SumOver(a, f) + SumOver(b, f)
  {
    if b == [] {
      assert a + b == a;
    } else {
      assert (a + b)[..|a + b| - 1] == a + b[..|b| - 1];
      SumSplits(a, b[..|b| - 1], f);
    }
  }

  /** Trimming hides no reading, and what it hides of settled funding and fees is exactly what is reported beside the chart. */
  lemma {:induction false} TrimConserves(days: seq<Day>, before: Option<Before>)
    requires var first := FirstReading(days);
             var dropped := if first.Some? then days[..first.value] else [];
             && (before.None? <==> SumOver(dropped, SettledOf()) == 0.0 && SumOver(dropped, FeesOf()) == 0.0)
             && (before.Some? ==> before.value == Before(SumOver(dropped, SettledOf()), SumOver(dropped, FeesOf())))
    ensures var kept := TrimToRecorded(days);
            && SumOver(days, SettledOf()) == (if before.Some? then before.value.funding else 0.0) + SumOver(kept, SettledOf())
            && SumOver(days, FeesOf()) == (if before.Some? then before.value.fees else 0.0) + SumOver(kept, FeesOf())
            && (forall k :: 0 <= k < |days| && Tells(days[k]) ==> k >= |days| - |kept|)
            && (kept != days ==> kept != [] && Tells(kept[0]))
  {
    var first := FirstReading(days);
    if first.Some? {
      var dropped, rest := days[..first.value], days[first.value..];
      assert days == dropped + rest;
      SumSplits(dropped, rest, SettledOf());
      SumSplits(dropped, rest, FeesOf());
      if first.value == 0 { assert rest == days; }
    }
  }
}

// Every figure of a day's row told from the inputs: which neighbours count, for how long, and with what amount.
module AccountingRows {
  import opened Options
  import opened PerplHistory
  import opened AccountingMath
  import opened AccountingDaily

  // ---- Sums over neighbours ----

  /** The terms of the pairs 1 to n - 1 added up; nothing if none has a term. */
  ghost function SumOver(term: nat -> Option<real>, n: nat): Option<real> {
    if n <= 1 then None
    else
      var before, last := SumOver(term, n - 1), term(n - 1);
      if last.None? then before else Some((if before.Some? then before.value else 0.0) + last.value)
  }

  ghost function CountOver(term: nat -> int, n: nat): int { if n <= 1 then 0 else CountOver(term, n - 1) + term(n - 1) }

  /** The milliseconds that lie at once between two moments, in the range asked for, and on a day. */
  ghost function Shared(x: Inputs, start: int, end: int, d: int): int {
    Max(0, Min(Min(end, x.to), (d + 1) * 86_400_000) - Max(Max(start, x.from), d * 86_400_000))
  }

  /** The days split an interval: their shares add up to it, wherever it begins and ends. */
  ghost function SharesFrom(start: int, end: int, lo: int, days: nat): int {
    if days == 0 then 0 else SharesFrom(start, end, lo, days - 1) + Overlap(start, end, lo + days - 1)
  }

  lemma {:induction false} SharesUpTo(start: int, end: int, lo: int, days: nat)
    requires start <= end && lo * 86_400_000 <= start
    ensures SharesFrom(start, end, lo, days) == Max(0, Min(end, (lo + days) * 86_400_000) - start)
  {
    if days > 0 { SharesUpTo(start, end, lo, days - 1); }
  }

  lemma DaysShareInterval(start: int, end: int, lo: int, days: nat)
    requires start <= end && lo * 86_400_000 <= start && end <= (lo + days) * 86_400_000
    ensures SharesFrom(start, end, lo, days) == end - start
  {
    SharesUpTo(start, end, lo, days);
  }

  // ---- Staking and capital ----

  /** Two neighbouring snapshots that are neither simultaneous nor too far apart, and touch the day. */
  ghost predicate Neighbours(x: Inputs, snaps: seq<Snapshot>, i: nat, d: int) {
    && 0 < i < |snaps| && 0 < snaps[i].at - snaps[i - 1].at <= x.maxGapMs
    && Shared(x, snaps[i - 1].at, snaps[i].at, d) > 0
  }

  /** The stake of the earlier snapshot, grown at its recorded rate for as long as the pair shares with the day. */
  ghost function StakeOf(x: Inputs, snaps: seq<Snapshot>, d: int, i: nat): Option<real> {
    if Neighbours(x, snaps, i, d) && snaps[i - 1].stakingApyBps.Some?
    then Some(snaps[i - 1].stakedMon * x.growth(snaps[i - 1].stakingApyBps.value, Shared(x, snaps[i - 1].at, snaps[i].at, d)))
    else None
  }

  /** The same in dollars, at the earlier snapshot's price. */
  ghost function StakeUsdOf(x: Inputs, snaps: seq<Snapshot>, d: int, i: nat): Option<real> {
    if Neighbours(x, snaps, i, d) && snaps[i - 1].stakingApyBps.Some?
    then Some(snaps[i - 1].stakedMon * x.growth(snaps[i - 1].stakingApyBps.value, Shared(x, snaps[i - 1].at, snaps[i].at, d)) * snaps[i - 1].monPriceUsd)
    else None
  }

  /** What a snapshot holds at work: its MON at the price of the moment, and the booked equity of the short. */
  ghost function CapitalOf(s: Snapshot): real { s.monHeld * s.monPriceUsd + s.shortEquityBookedUsd }

  ghost predicate BothFresh(x: Inputs, snaps: seq<Snapshot>, i: nat, d: int) {
    Neighbours(x, snaps, i, d) && snaps[i - 1].shortBookFresh && snaps[i].shortBookFresh
  }

  ghost function WeightedOf(x: Inputs, snaps: seq<Snapshot>, d: int, i: nat): Option<real> {
    if BothFresh(x, snaps, i, d) then Some(CapitalOf(snaps[i - 1]) * Shared(x, snaps[i - 1].at, snaps[i].at, d) as real) else None
  }

  ghost function MsOf(x: Inputs, snaps: seq<Snapshot>, d: int, i: nat): int {
    if BothFresh(x, snaps, i, d) then Shared(x, snaps[i - 1].at, snaps[i].at, d) else 0
  }

  ghost function StakeTerm(x: Inputs, snaps: seq<Snapshot>, d: int): nat -> Option<real> { (i: nat) => StakeOf(x, snaps, d, i) }
  ghost function StakeUsdTerm(x: Inputs, snaps: seq<Snapshot>, d: int): nat -> Option<real> { (i: nat) => StakeUsdOf(x, snaps, d, i) }
  ghost function CapitalTerm(x: Inputs, snaps: seq<Snapshot>, d: int): nat -> Option<real> { (i: nat) => WeightedOf(x, snaps, d, i) }
  ghost function CapitalMs(x: Inputs, snaps: seq<Snapshot>, d: int): nat -> int { (i: nat) => MsOf(x, snaps, d, i) }

  lemma PairIsShared(x: Inputs, snaps: seq<Snapshot>, i: nat, d: int)
    requires 0 < i < |snaps|
    ensures PairMs(x, snaps, i, d) == if Neighbours(x, snaps, i, d) then Shared(x, snaps[i - 1].at, snaps[i].at, d) else 0
  {
  }

  /** What the loop has accrued is the terms so far. */
  ghost predicate AccruedTerms(x: Inputs, snaps: seq<Snapshot>, n: nat, d: int, a: Accrual) {
    && a.mon == SumOver(StakeTerm(x, snaps, d), n) && a.usd == SumOver(StakeUsdTerm(x, snaps, d), n)
    && a.weighted == SumOver(CapitalTerm(x, snaps, d), n) && a.capitalMs == CountOver(CapitalMs(x, snaps, d), n)
  }

  lemma TermsAre(x: Inputs, snaps: seq<Snapshot>, i: nat, d: int)
    ensures StakeTerm(x, snaps, d)(i) == StakeOf(x, snaps, d, i) && StakeUsdTerm(x, snaps, d)(i) == StakeUsdOf(x, snaps, d, i)
    ensures CapitalTerm(x, snaps, d)(i) == WeightedOf(x, snaps, d, i) && CapitalMs(x, snaps, d)(i) == MsOf(x, snaps, d, i)
  {
  }

  lemma AccrueTerm(x: Inputs, snaps: seq<Snapshot>, i: nat, d: int, a: Accrual)
    requires 0 < i < |snaps| && AccruedTerms(x, snaps, i, d, a)
    ensures var ms := PairMs(x, snaps, i, d);
            AccruedTerms(x, snaps, i + 1, d, if ms == 0 then a else AddPiece(x, a, snaps[i - 1], snaps[i], ms))
  {
    PairIsShared(x, snaps, i, d);
    var ms := PairMs(x, snaps, i, d);
    TermsAre(x, snaps, i, d);
    if ms != 0 { PieceTerms(x, snaps, i, d, a, ms); }
  }

  ghost function Joined(sum: Option<real>, term: Option<real>): Option<real> {
    if term.None? then sum else Some((if sum.Some? then sum.value else 0.0) + term.value)
  }

  lemma PieceTerms(x: Inputs, snaps: seq<Snapshot>, i: nat, d: int, a: Accrual, ms: int)
    requires 0 < i < |snaps| && Neighbours(x, snaps, i, d) && ms == Shared(x, snaps[i - 1].at, snaps[i].at, d)
    ensures var b := AddPiece(x, a, snaps[i - 1], snaps[i], ms);
            && b.mon == Joined(a.mon, StakeOf(x, snaps, d, i)) && b.usd == Joined(a.usd, StakeUsdOf(x, snaps, d, i))
            && b.weighted == Joined(a.weighted, WeightedOf(x, snaps, d, i)) && b.capitalMs == a.capitalMs + MsOf(x, snaps, d, i)
  {
    StakePiece(x, snaps, i, d, ms);
    CapitalPiece(x, snaps, i, d, ms);
  }

  lemma StakePiece(x: Inputs, snaps: seq<Snapshot>, i: nat, d: int, ms: int)
    requires 0 < i < |snaps| && Neighbours(x, snaps, i, d) && ms == Shared(x, snaps[i - 1].at, snaps[i].at, d)
    ensures var s := snaps[i - 1];
            && StakeOf(x, snaps, d, i) == (if s.stakingApyBps.Some? then Some(StakingMon(x, s, ms)) else None)
            && StakeUsdOf(x, snaps, d, i) == (if s.stakingApyBps.Some? then Some(StakingUsd(x, s, ms)) else None)
  {
    var s := snaps[i - 1];
    if s.stakingApyBps.Some? {
      var grown := s.stakedMon * x.growth(s.stakingApyBps.value, ms);
      assert StakeOf(x, snaps, d, i).value == grown && StakingMon(x, s, ms) == grown;
      assert StakeUsdOf(x, snaps, d, i).value == grown * s.monPriceUsd && StakingUsd(x, s, ms) == grown * s.monPriceUsd;
    }
  }

  lemma CapitalPiece(x: Inputs, snaps: seq<Snapshot>, i: nat, d: int, ms: int)
    requires 0 < i < |snaps| && Neighbours(x, snaps, i, d) && ms == Shared(x, snaps[i - 1].at, snaps[i].at, d)
    ensures var both := snaps[i - 1].shortBookFresh && snaps[i].shortBookFresh;
            && WeightedOf(x, snaps, d, i) == (if both then Some(WeightedCapital(snaps[i - 1], ms)) else None)
            && MsOf(x, snaps, d, i) == (if both then ms else 0)
  {
    if BothFresh(x, snaps, i, d) {
      assert WeightedOf(x, snaps, d, i).value == CapitalOf(snaps[i - 1]) * ms as real == WeightedCapital(snaps[i - 1], ms);
    }
  }

  lemma {:induction false} AccrualIsTerms(x: Inputs, snaps: seq<Snapshot>, n: nat, d: int)
    requires n <= |snaps|
    ensures AccruedTerms(x, snaps, n, d, AccrualAfter(x, snaps, n, d))
  {
    if n > 1 {
      AccrualIsTerms(x, snaps, n - 1, d);
      AccrueTerm(x, snaps, n - 1, d, AccrualAfter(x, snaps, n - 1, d));
      PairStep(x, snaps, n - 1, d);
    }
  }

  lemma FinishMeans(x: Inputs, weighted: Option<real>, day: Day)
    ensures var row := Finish(x, weighted, day);
            && (row.capitalInUseUsd.Some? <==> day.capitalCoveredMs > 0 && weighted.Some?)
            && (row.capitalInUseUsd.Some? ==> weighted.value == row.capitalInUseUsd.value * day.capitalCoveredMs as real)
            && row.capitalCoveredMs == day.capitalCoveredMs
  {
    if day.capitalCoveredMs > 0 && weighted.Some? { Quotient(weighted.value, day.capitalCoveredMs as real); }
  }

  lemma Quotient(a: real, b: real)
    requires b > 0.0
    ensures a / b * b == a
  {
  }

  lemma RowAccrual(x: Inputs, d: int)
    ensures var a, row := AccrualAfter(x, SnapshotsOf(x), |SnapshotsOf(x)|, d), DayRow(x, d);
            && row.stakingEstimatedMon == a.mon && row.stakingEstimatedUsd == a.usd && row.capitalCoveredMs == a.capitalMs
            && (row.capitalInUseUsd.Some? <==> a.capitalMs > 0 && a.weighted.Some?)
            && (row.capitalInUseUsd.Some? ==> a.weighted.value == row.capitalInUseUsd.value * a.capitalMs as real)
  {
    var snaps, obs := SnapshotsOf(x), ObservationsOf(x);
    var a := AccrualAfter(x, snaps, |snaps|, d);
    var settled := WithSettled(x, WithAccrual(a, WithReturn(x, snaps, |snaps|, Blank(x, d))));
    FinishMeans(x, a.weighted, WithObserved(x, obs, |obs|, settled));
    assert DayRow(x, d) == Finish(x, a.weighted, WithObserved(x, obs, |obs|, settled));
  }

  /** Over the time of the counted pairs the mean holds as much as they do. */
  ghost predicate IsMean(x: Inputs, snaps: seq<Snapshot>, d: int, mean: real) {
    var total := SumOver(CapitalTerm(x, snaps, d), |snaps|);
    total.Some? && Means(mean, total.value, CountOver(CapitalMs(x, snaps, d), |snaps|))
  }

  ghost predicate Means(mean: real, total: real, ms: int) { total == mean * ms as real }

  /** The day's staking estimate, in MON and in dollars, and its capital and the time that covers, are these sums. */
  lemma AmountsExactly(x: Inputs, d: int)
    ensures var snaps, row := SnapshotsOf(x), DayRow(x, d);
            && row.stakingEstimatedMon == SumOver(StakeTerm(x, snaps, d), |snaps|)
            && row.stakingEstimatedUsd == SumOver(StakeUsdTerm(x, snaps, d), |snaps|)
            && row.capitalCoveredMs == CountOver(CapitalMs(x, snaps, d), |snaps|)
            && (row.capitalInUseUsd.Some? <==> row.capitalCoveredMs > 0)
            && (row.capitalInUseUsd.Some? ==> IsMean(x, snaps, d, row.capitalInUseUsd.value))
  {
    var snaps := SnapshotsOf(x);
    AccrualIsTerms(x, snaps, |snaps|, d);
    RowAccrual(x, d);
    CapitalHasTime(x, snaps, |snaps|, d);
  }

  lemma {:induction false} CapitalHasTime(x: Inputs, snaps: seq<Snapshot>, n: nat, d: int)
    ensures CountOver(CapitalMs(x, snaps, d), n) >= 0
    ensures CountOver(CapitalMs(x, snaps, d), n) > 0 <==> SumOver(CapitalTerm(x, snaps, d), n).Some?
  {
    if n > 1 { CapitalHasTime(x, snaps, n - 1, d); }
  }

  // ---- A weighted mean lies within the bounds of what it weighs ----

  ghost predicate Bounded(lo: real, hi: real, total: real, ms: int) { lo * ms as real <= total <= hi * ms as real }

  lemma Distributes(a: real, b: int, c: int)
    ensures a * (b + c) as real == a * b as real + a * c as real
  {
    assert (b + c) as real == b as real + c as real;
  }

  lemma BoundedAdds(lo: real, hi: real, t: real, v: int, u: real, w: int, total: real, ms: int)
    requires Bounded(lo, hi, t, v) && Bounded(lo, hi, u, w) && total == t + u && ms == v + w
    ensures Bounded(lo, hi, total, ms)
  {
    Distributes(lo, v, w);
    Distributes(hi, v, w);
  }

  lemma SumNext(term: nat -> Option<real>, n: nat)
    requires n > 0
    ensures Or(SumOver(term, n + 1), 0.0) == Or(SumOver(term, n), 0.0) + Or(term(n), 0.0)
  {
  }

  lemma {:induction false} SumBounded(term: nat -> Option<real>, weight: nat -> int, n: nat, lo: real, hi: real)
    requires forall i :: 0 < i < n ==> Bounded(lo, hi, Or(term(i), 0.0), weight(i))
    ensures Bounded(lo, hi, Or(SumOver(term, n), 0.0), CountOver(weight, n))
  {
    if n > 1 {
      SumBounded(term, weight, n - 1, lo, hi);
      SumNext(term, n - 1);
      BoundedAdds(lo, hi, Or(SumOver(term, n - 1), 0.0), CountOver(weight, n - 1), Or(term(n - 1), 0.0), weight(n - 1),
                  Or(SumOver(term, n), 0.0), CountOver(weight, n));
    }
  }

  lemma Weighs(a: real, b: real, ms: real)
    requires a <= b && ms >= 0.0
    ensures a * ms <= b * ms
  {
    assert b * ms - a * ms == (b - a) * ms;
  }

  lemma OneBounded(lo: real, hi: real, c: real, ms: nat)
    requires lo <= c <= hi
    ensures Bounded(lo, hi, c * ms as real, ms)
  {
    Weighs(lo, c, ms as real);
    Weighs(c, hi, ms as real);
  }

  lemma TermBounded(x: Inputs, snaps: seq<Snapshot>, i: nat, d: int, lo: real, hi: real)
    requires BothFresh(x, snaps, i, d) ==> lo <= CapitalOf(snaps[i - 1]) <= hi
    ensures Bounded(lo, hi, Or(CapitalTerm(x, snaps, d)(i), 0.0), CapitalMs(x, snaps, d)(i))
  {
    TermsAre(x, snaps, i, d);
    if BothFresh(x, snaps, i, d) { OneBounded(lo, hi, CapitalOf(snaps[i - 1]), Shared(x, snaps[i - 1].at, snaps[i].at, d)); }
  }

  lemma Lighter(a: real, b: real, ms: real)
    requires a < b && ms > 0.0
    ensures a * ms < b * ms
  {
    assert b * ms - a * ms == (b - a) * ms;
  }

  lemma MeanWithin(mean: real, total: real, ms: int, lo: real, hi: real)
    requires ms > 0 && Means(mean, total, ms) && Bounded(lo, hi, total, ms)
    ensures lo <= mean <= hi
  {
    if mean < lo {
      Lighter(mean, lo, ms as real);
      assert false;
    }
    if mean > hi {
      Lighter(hi, mean, ms as real);
      assert false;
    }
  }

  /** Every snapshot that opens a counted pair holds between lo and hi. */
  ghost predicate CapitalWithin(x: Inputs, snaps: seq<Snapshot>, d: int, lo: real, hi: real) {
    forall i :: 0 < i < |snaps| && BothFresh(x, snaps, i, d) ==> lo <= CapitalOf(snaps[i - 1]) <= hi
  }

  lemma TermsBounded(x: Inputs, snaps: seq<Snapshot>, d: int, lo: real, hi: real)
    requires CapitalWithin(x, snaps, d, lo, hi)
    ensures Bounded(lo, hi, Or(SumOver(CapitalTerm(x, snaps, d), |snaps|), 0.0), CountOver(CapitalMs(x, snaps, d), |snaps|))
  {
    forall i | 0 < i < |snaps| ensures Bounded(lo, hi, Or(CapitalTerm(x, snaps, d)(i), 0.0), CapitalMs(x, snaps, d)(i)) {
      TermBounded(x, snaps, i, d, lo, hi);
    }
    SumBounded(CapitalTerm(x, snaps, d), CapitalMs(x, snaps, d), |snaps|, lo, hi);
  }

  lemma MeanOfTerms(x: Inputs, snaps: seq<Snapshot>, d: int, lo: real, hi: real, mean: real)
    requires CapitalWithin(x, snaps, d, lo, hi) && CountOver(CapitalMs(x, snaps, d), |snaps|) > 0 && IsMean(x, snaps, d, mean)
    ensures lo <= mean <= hi
  {
    TermsBounded(x, snaps, d, lo, hi);
    MeanWithin(mean, SumOver(CapitalTerm(x, snaps, d), |snaps|).value, CountOver(CapitalMs(x, snaps, d), |snaps|), lo, hi);
  }

  /** Capital in use is a mean: it lies between any bounds on what the counted snapshots hold. */
  lemma CapitalIsMean(x: Inputs, d: int, lo: real, hi: real)
    requires CapitalWithin(x, SnapshotsOf(x), d, lo, hi) && DayRow(x, d).capitalInUseUsd.Some?
    ensures lo <= DayRow(x, d).capitalInUseUsd.value <= hi
  {
    AmountsExactly(x, d);
    MeanOfTerms(x, SnapshotsOf(x), d, lo, hi, DayRow(x, d).capitalInUseUsd.value);
  }

  // ---- Observed funding ----

  /** Funding that no market explains. */
  ghost predicate Unexplained(x: Inputs, start: int, end: int) {
    exists e :: e in x.events && e.marketId.None? && e.fundingRaw.Some? && e.fundingRaw.value != 0 && start < e.at <= end
  }

  /** Two neighbouring observations of one scope, in order, not too far apart, inside the range and the claim, both with a reading, and nothing unexplained between them. */
  ghost predicate Books(x: Inputs, obs: seq<Observation>, i: nat) {
    && 0 < i < |obs| && obs[i].scope == obs[i - 1].scope && 0 < obs[i].at - obs[i - 1].at <= x.maxGapMs
    && x.from <= obs[i - 1].at && obs[i].at <= x.to && x.fundingThrough.Some? && obs[i].at <= x.fundingThrough.value
    && obs[i - 1].openFundingUsd.Some? && obs[i].openFundingUsd.Some? && !Unexplained(x, obs[i - 1].at, obs[i].at)
  }

  ghost function SettledRaw(x: Inputs, start: int, end: int): int {
    if x.marketId.None? then 0 else Total(ReconciledFunding(x.events, x.marketId.value), Funding, Between(start, end))
  }

  /** What a booked pair adds to the day it ends on: settled since, and the change in what is open. */
  ghost function ObservedOf(x: Inputs, obs: seq<Observation>, d: int, i: nat): Option<real> {
    if Books(x, obs, i) && obs[i].at / 86_400_000 == d
    then Some(SettledRaw(x, obs[i - 1].at, obs[i].at) as real / 1_000_000.0 + obs[i].openFundingUsd.value - obs[i - 1].openFundingUsd.value)
    else None
  }

  ghost function WatchedMs(x: Inputs, obs: seq<Observation>, d: int, i: nat): int {
    if Books(x, obs, i) then Max(0, Min(obs[i].at, (d + 1) * 86_400_000) - Max(obs[i - 1].at, d * 86_400_000)) else 0
  }

  ghost function ObservedTerm(x: Inputs, obs: seq<Observation>, d: int): nat -> Option<real> { (i: nat) => ObservedOf(x, obs, d, i) }
  ghost function WatchedTerm(x: Inputs, obs: seq<Observation>, d: int): nat -> int { (i: nat) => WatchedMs(x, obs, d, i) }

  lemma BooksIsAccepted(x: Inputs, obs: seq<Observation>, i: nat)
    requires 0 < i < |obs|
    ensures Accepted(x, obs, i) <==> Books(x, obs, i)
    ensures Books(x, obs, i) ==>
              Delta(x, obs, i) == SettledRaw(x, obs[i - 1].at, obs[i].at) as real / 1_000_000.0 + obs[i].openFundingUsd.value - obs[i - 1].openFundingUsd.value
  {
    assert UnknownBetween(x.events, obs[i - 1].at, obs[i].at) <==> Unexplained(x, obs[i - 1].at, obs[i].at);
  }

  lemma {:induction false} ObservedIsTerms(x: Inputs, obs: seq<Observation>, n: nat, d: int)
    requires n <= |obs|
    ensures ObservedAfter(x, obs, n, d) == SumOver(ObservedTerm(x, obs, d), n)
    ensures ObservedMsAfter(x, obs, n, d) == CountOver(WatchedTerm(x, obs, d), n)
  {
    if n > 1 {
      ObservedIsTerms(x, obs, n - 1, d);
      BooksIsAccepted(x, obs, n - 1);
      assert ObservedTerm(x, obs, d)(n - 1) == ObservedOf(x, obs, d, n - 1) && WatchedTerm(x, obs, d)(n - 1) == WatchedMs(x, obs, d, n - 1);
    }
  }

  lemma RowObserves(x: Inputs, d: int)
    ensures var obs, row := ObservationsOf(x), DayRow(x, d);
            row.fundingObservedUsd == ObservedAfter(x, obs, |obs|, d) && row.fundingObservedMs == ObservedMsAfter(x, obs, |obs|, d)
  {
    var snaps, obs := SnapshotsOf(x), ObservationsOf(x);
    var a := AccrualAfter(x, snaps, |snaps|, d);
    BlankShape(x, snaps, d);
    var settled := WithSettled(x, WithAccrual(a, WithReturn(x, snaps, |snaps|, Blank(x, d))));
    assert DayRow(x, d) == Finish(x, a.weighted, WithObserved(x, obs, |obs|, settled));
  }

  /** Observed funding, the time it covers, and the income of the day are these sums. */
  lemma ObservedExactly(x: Inputs, d: int)
    ensures var obs, row := ObservationsOf(x), DayRow(x, d);
            && row.fundingObservedUsd == SumOver(ObservedTerm(x, obs, d), |obs|)
            && row.fundingObservedMs == CountOver(WatchedTerm(x, obs, d), |obs|)
            && (row.strategyIncomeEstimatedUsd.Some? <==> row.stakingEstimatedUsd.Some? && row.fundingObservedUsd.Some?)
            && (row.strategyIncomeEstimatedUsd.Some? ==>
                  row.strategyIncomeEstimatedUsd.value == row.stakingEstimatedUsd.value + row.fundingObservedUsd.value)
            && MarkedPartial(x, row, d)
  {
    ObservedIsTerms(x, ObservationsOf(x), |ObservationsOf(x)|, d);
    RowObserves(x, d);
    RowIncome(x, d);
  }

  lemma RowIncome(x: Inputs, d: int)
    ensures var row := DayRow(x, d);
            && (row.strategyIncomeEstimatedUsd.Some? <==> row.stakingEstimatedUsd.Some? && row.fundingObservedUsd.Some?)
            && (row.strategyIncomeEstimatedUsd.Some? ==>
                  row.strategyIncomeEstimatedUsd.value == row.stakingEstimatedUsd.value + row.fundingObservedUsd.value)
            && MarkedPartial(x, row, d)
  {
    var snaps, obs := SnapshotsOf(x), ObservationsOf(x);
    var a := AccrualAfter(x, snaps, |snaps|, d);
    BlankShape(x, snaps, d);
    var settled := WithSettled(x, WithAccrual(a, WithReturn(x, snaps, |snaps|, Blank(x, d))));
    assert DayRow(x, d) == Finish(x, a.weighted, WithObserved(x, obs, |obs|, settled));
  }

  /** A row is partial exactly when its day is not over in the range, or a coverage or a settled figure is missing. */
  ghost predicate MarkedPartial(x: Inputs, row: Day, d: int) {
    row.partial
    <==> || x.to < (d + 1) * 86_400_000 || row.stakingCoveredMs < 86_400_000 || row.fundingObservedMs < 86_400_000
         || row.fundingSettledUsd.None? || row.tradingFeesUsd.None?
  }

  // ---- Settled figures ----

  /** What an event settles, by kind of figure. */
  ghost function SettlesOf(e: Event, f: Field): Option<int> {
    match f
    case Funding => e.fundingRaw
    case Fees => e.tradingFeeRaw
    case Pnl => e.realisedTradingPnlRaw
  }

  /** The raw figures of the market's events of the day, inside the range. */
  ghost function MarketSum(x: Inputs, events: seq<Event>, f: Field, d: int): int {
    if events == [] then 0
    else
      var e := events[|events| - 1];
      MarketSum(x, events[..|events| - 1], f, d)
      + (if e.marketId == x.marketId && e.at / 86_400_000 == d && x.from <= e.at <= x.to && SettlesOf(e, f).Some? then SettlesOf(e, f).value else 0)
  }

  lemma {:induction false} MarketTotal(x: Inputs, events: seq<Event>, f: Field, d: int)
    ensures Total(InMarket(events, x.marketId), f, OnDay(d, x.from, x.to)) == MarketSum(x, events, f, d)
  {
    if events != [] {
      var m := |events| - 1;
      MarketTotal(x, events[..m], f, d);
      var last := if events[m].marketId == x.marketId then [events[m]] else [];
      TotalConcat(InMarket(events[..m], x.marketId), last, f, OnDay(d, x.from, x.to));
      assert [events[m]][..0] == [];
      ShareIs(x, events[m], f, d);
    }
  }

  lemma ShareIs(x: Inputs, e: Event, f: Field, d: int)
    ensures Share(e, f, OnDay(d, x.from, x.to))
         == if e.at / 86_400_000 == d && x.from <= e.at <= x.to && SettlesOf(e, f).Some? then SettlesOf(e, f).value else 0
  {
  }

  /** A figure is shown when its history reaches the day's first instant and the floor lies before the day's end. */
  ghost predicate Reaches(x: Inputs, through: Option<int>, d: int) {
    through.Some? && d * 86_400_000 <= through.value && (x.historyFrom.None? || (d + 1) * 86_400_000 > x.historyFrom.value)
  }

  /** Settled funding is shown exactly when both its streams reach the day and no funding of the day is unexplained. */
  lemma FundingSettledExactly(x: Inputs, d: int)
    ensures var row := DayRow(x, d);
            && row.date == d
            && (row.fundingSettledUsd.Some? <==> Reaches(x, x.fundingThrough, d) && !Unexplained(x, d * 86_400_000 - 1, (d + 1) * 86_400_000 - 1))
            && (row.fundingSettledUsd.Some? ==>
                  row.fundingSettledUsd.value
                  == (if x.marketId.None? then 0 else Total(ReconciledFunding(x.events, x.marketId.value), Funding, OnDay(d, x.from, x.to))) as real / 1_000_000.0)
  {
    UnexplainedDay(x, d);
  }

  lemma UnexplainedDay(x: Inputs, d: int)
    ensures UnknownOn(x.events, d) <==> Unexplained(x, d * 86_400_000 - 1, (d + 1) * 86_400_000 - 1)
  {
    if UnknownOn(x.events, d) {
      var e :| e in x.events && Unattributed(e) && DayOf(e.at) == d;
      assert d * 86_400_000 - 1 < e.at <= (d + 1) * 86_400_000 - 1;
    }
  }

  /** Trading fees and realised results are shown exactly when their streams reach the day, and are the market's raw sums. */
  lemma SettledExactly(x: Inputs, d: int)
    ensures var row := DayRow(x, d);
            && (row.tradingFeesUsd.Some? <==> Reaches(x, x.fillsThrough, d))
            && (row.tradingFeesUsd.Some? ==> row.tradingFeesUsd.value == MarketSum(x, x.events, Fees, d) as real / 1_000_000.0)
            && (row.realisedTradingPnlUsd.Some? <==> Reaches(x, x.positionsThrough, d))
            && (row.realisedTradingPnlUsd.Some? ==> row.realisedTradingPnlUsd.value == MarketSum(x, x.events, Pnl, d) as real / 1_000_000.0)
  {
    MarketTotal(x, x.events, Fees, d);
    MarketTotal(x, x.events, Pnl, d);
  }
}

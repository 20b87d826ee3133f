// The return of a day told from the snapshots alone: which are in range, which have no price, which are fresh.
module AccountingReturns {
  import opened Options
  import opened AccountingMath
  import opened AccountingDaily

  ghost predicate Ranged(x: Inputs, s: Snapshot) { x.from <= s.at && s.at <= x.to }

  /** Nothing is outstanding, or the share has no price above zero. */
  ghost predicate Unpriced(s: Snapshot) { s.supplyZero || s.pricePerShareUsd.None? || s.pricePerShareUsd.value <= 0.0 }

  /** A reading a return can be measured at, or from. */
  ghost predicate Measurable(x: Inputs, s: Snapshot) { Ranged(x, s) && s.shortBookFresh && !Unpriced(s) }

  ghost predicate ResetAt(x: Inputs, snaps: seq<Snapshot>, i: nat) { i < |snaps| && Ranged(x, snaps[i]) && Unpriced(snaps[i]) }

  ghost predicate ResetBetween(x: Inputs, snaps: seq<Snapshot>, i: nat, n: nat) { exists m: nat :: i < m < n && ResetAt(x, snaps, m) }

  /** The in-range resets among the first n snapshots. */
  ghost function ResetCount(x: Inputs, snaps: seq<Snapshot>, n: nat): nat
    requires n <= |snaps|
  {
    if n == 0 then 0 else ResetCount(x, snaps, n - 1) + (if ResetAt(x, snaps, n - 1) then 1 else 0)
  }

  /** Of the first n snapshots, j is the first measurable one since the last reset. */
  ghost predicate FirstSince(x: Inputs, snaps: seq<Snapshot>, j: nat, n: nat) {
    && j < n <= |snaps| && Measurable(x, snaps[j]) && !ResetBetween(x, snaps, j, n)
    && forall i: nat :: i < j && Measurable(x, snaps[i]) ==> ResetBetween(x, snaps, i, j)
  }

  /** k is the last in-range snapshot of the day. */
  ghost predicate LastOfDay(x: Inputs, snaps: seq<Snapshot>, k: nat, d: int) {
    && k < |snaps| && Ranged(x, snaps[k]) && snaps[k].at / DAY == d
    && forall j: nat :: k < j < |snaps| && Ranged(x, snaps[j]) ==> snaps[j].at / DAY != d
  }

  // ---- What the loop carries ----

  ghost predicate BaseMeans(x: Inputs, snaps: seq<Snapshot>, n: nat)
    requires n <= |snaps|
  {
    var b := BaseAfter(x, snaps, n);
    && b.segment == ResetCount(x, snaps, n)
    && (b.baseline.Some? ==> exists j: nat :: FirstSince(x, snaps, j, n) && snaps[j].pricePerShareUsd == b.baseline)
    && (b.baseline.None? ==> forall j: nat :: j < n && Measurable(x, snaps[j]) ==> ResetBetween(x, snaps, j, n))
  }

  lemma ResetStays(x: Inputs, snaps: seq<Snapshot>, i: nat, n: nat)
    requires n < |snaps|
    ensures ResetBetween(x, snaps, i, n) ==> ResetBetween(x, snaps, i, n + 1)
    ensures i < n && ResetAt(x, snaps, n) ==> ResetBetween(x, snaps, i, n + 1)
    ensures !ResetAt(x, snaps, n) && ResetBetween(x, snaps, i, n + 1) ==> ResetBetween(x, snaps, i, n)
  {
  }

  lemma FirstStays(x: Inputs, snaps: seq<Snapshot>, j: nat, n: nat)
    requires n < |snaps| && FirstSince(x, snaps, j, n) && !ResetAt(x, snaps, n)
    ensures FirstSince(x, snaps, j, n + 1)
  {
    ResetStays(x, snaps, j, n);
  }

  lemma FirstIsNew(x: Inputs, snaps: seq<Snapshot>, n: nat)
    requires n < |snaps| && Measurable(x, snaps[n])
    requires forall j: nat :: j < n && Measurable(x, snaps[j]) ==> ResetBetween(x, snaps, j, n)
    ensures FirstSince(x, snaps, n, n + 1)
  {
  }

  lemma BaseStepMeans(x: Inputs, snaps: seq<Snapshot>, n: nat)
    requires n < |snaps| && BaseMeans(x, snaps, n)
    ensures BaseMeans(x, snaps, n + 1)
  {
    var b := BaseAfter(x, snaps, n);
    forall i: nat ensures ResetBetween(x, snaps, i, n) ==> ResetBetween(x, snaps, i, n + 1) {
      ResetStays(x, snaps, i, n);
    }
    if ResetAt(x, snaps, n) {
      forall j: nat | j < n + 1 && Measurable(x, snaps[j]) ensures ResetBetween(x, snaps, j, n + 1) {
        ResetStays(x, snaps, j, n);
      }
    } else if b.baseline.Some? {
      var j: nat :| FirstSince(x, snaps, j, n) && snaps[j].pricePerShareUsd == b.baseline;
      FirstStays(x, snaps, j, n);
    } else if Measurable(x, snaps[n]) {
      FirstIsNew(x, snaps, n);
    }
  }

  lemma {:induction false} BasesMean(x: Inputs, snaps: seq<Snapshot>, n: nat)
    requires n <= |snaps|
    ensures BaseMeans(x, snaps, n)
  {
    if n > 0 {
      BasesMean(x, snaps, n - 1);
      BaseStepMeans(x, snaps, n - 1);
    }
  }

  // ---- The row ----

  /** A row with no snapshot of its day reads nothing. */
  ghost predicate ReadsNothing(row: Day) {
    row.snapshotAt.None? && row.shortBookFresh.None? && row.pricePerShareUsd.None? && row.vaultReturnPct.None? && row.returnSegment.None?
  }

  /**
   The row reads the snapshot numbered k: its return is its price over that of the first measurable snapshot since
   the last reset, and its segment the number of resets so far. A stale or unpriced one has neither.
   */
  ghost predicate ReadsAt(x: Inputs, snaps: seq<Snapshot>, row: Day, k: nat)
    requires k < |snaps|
  {
    var s := snaps[k];
    && row.snapshotAt == Some(s.at) && row.shortBookFresh == Some(s.shortBookFresh)
    && row.pricePerShareUsd == (if Unpriced(s) then None else s.pricePerShareUsd)
    && if !Measurable(x, s) then row.returnSegment.None? && row.vaultReturnPct.None?
       else
         && row.returnSegment == Some(ResetCount(x, snaps, k + 1))
         && exists j: nat :: FirstSince(x, snaps, j, k + 1) && snaps[j].pricePerShareUsd.value > 0.0
                          && row.vaultReturnPct == Some((s.pricePerShareUsd.value / snaps[j].pricePerShareUsd.value - 1.0) * 100.0)
  }

  /** The five fields that read a snapshot agree. */
  ghost predicate SameReading(p: Day, q: Day) {
    p.snapshotAt == q.snapshotAt && p.shortBookFresh == q.shortBookFresh && p.pricePerShareUsd == q.pricePerShareUsd
    && p.vaultReturnPct == q.vaultReturnPct && p.returnSegment == q.returnSegment
  }

  lemma RowReads(x: Inputs, d: int)
    ensures SameReading(WithReturn(x, SnapshotsOf(x), |SnapshotsOf(x)|, Blank(x, d)), DayRow(x, d))
  {
  }

  lemma LastIsLast(x: Inputs, snaps: seq<Snapshot>, d: int)
    ensures var k := LastOn(x, snaps, |snaps|, d);
            if k.Some? then LastOfDay(x, snaps, k.value, d)
            else forall j: nat :: j < |snaps| && Ranged(x, snaps[j]) ==> snaps[j].at / DAY != d
  {
  }

  /** What the loop carries past a measurable snapshot. */
  lemma MeasurableHasBase(x: Inputs, snaps: seq<Snapshot>, k: nat) returns (j: nat)
    requires k < |snaps| && Measurable(x, snaps[k])
    ensures var b := BaseAfter(x, snaps, k + 1);
            && FirstSince(x, snaps, j, k + 1) && b.baseline.Some? && snaps[j].pricePerShareUsd == b.baseline
            && b.segment == ResetCount(x, snaps, k + 1)
  {
    BasesMean(x, snaps, k + 1);
    j :| FirstSince(x, snaps, j, k + 1) && snaps[j].pricePerShareUsd == BaseAfter(x, snaps, k + 1).baseline;
  }

  lemma MeasuredReads(x: Inputs, snaps: seq<Snapshot>, blank: Day, k: nat, j: nat, b: Base)
    requires k < |snaps| && Measurable(x, snaps[k]) && FirstSince(x, snaps, j, k + 1)
    requires b.baseline.Some? && b.baseline.value > 0.0 && snaps[j].pricePerShareUsd == b.baseline && b.segment == ResetCount(x, snaps, k + 1)
    ensures ReadsAt(x, snaps, Read(blank, snaps[k], b), k)
  {
  }

  lemma UnmeasuredReads(x: Inputs, snaps: seq<Snapshot>, blank: Day, k: nat, b: Base)
    requires k < |snaps| && Ranged(x, snaps[k]) && !Measurable(x, snaps[k]) && ReadsNothing(blank) && (b.baseline.Some? ==> b.baseline.value > 0.0)
    ensures ReadsAt(x, snaps, Read(blank, snaps[k], b), k)
  {
  }

  lemma MarkedReads(x: Inputs, snaps: seq<Snapshot>, blank: Day, k: nat)
    requires k < |snaps| && Ranged(x, snaps[k]) && ReadsNothing(blank)
    ensures BaseAfter(x, snaps, k + 1).baseline.Some? ==> BaseAfter(x, snaps, k + 1).baseline.value > 0.0
    ensures ReadsAt(x, snaps, Read(blank, snaps[k], BaseAfter(x, snaps, k + 1)), k)
  {
    BasePositive(x, snaps, k + 1);
    var b := BaseAfter(x, snaps, k + 1);
    if Measurable(x, snaps[k]) {
      var j := MeasurableHasBase(x, snaps, k);
      MeasuredReads(x, snaps, blank, k, j, b);
    } else {
      UnmeasuredReads(x, snaps, blank, k, b);
    }
  }

  /** The row reads the last in-range snapshot of the day, or nothing if the day has none. */
  ghost predicate ReadsDay(x: Inputs, snaps: seq<Snapshot>, row: Day, d: int) {
    && (forall k: nat :: LastOfDay(x, snaps, k, d) ==> ReadsAt(x, snaps, row, k))
    && ((forall k: nat :: !LastOfDay(x, snaps, k, d)) ==> ReadsNothing(row))
  }

  lemma MarkedExactly(x: Inputs, snaps: seq<Snapshot>, blank: Day, d: int)
    requires blank.date == d && ReadsNothing(blank)
    ensures ReadsDay(x, snaps, WithReturn(x, snaps, |snaps|, blank), d)
  {
    LastIsLast(x, snaps, d);
    var last := LastOn(x, snaps, |snaps|, d);
    if last.Some? {
      MarkedReads(x, snaps, blank, last.value);
      assert forall k: nat :: LastOfDay(x, snaps, k, d) ==> k == last.value;
    }
  }

  lemma ReadingCarries(x: Inputs, snaps: seq<Snapshot>, p: Day, q: Day, d: int)
    requires SameReading(p, q) && ReadsDay(x, snaps, p, d)
    ensures ReadsDay(x, snaps, q, d)
  {
    forall k: nat | LastOfDay(x, snaps, k, d) ensures ReadsAt(x, snaps, q, k) {
      assert ReadsAt(x, snaps, p, k);
    }
  }

  /** Every day's row does. */
  lemma ReturnExactly(x: Inputs, d: int)
    ensures ReadsDay(x, SnapshotsOf(x), DayRow(x, d), d)
  {
    MarkedExactly(x, SnapshotsOf(x), Blank(x, d), d);
    RowReads(x, d);
    ReadingCarries(x, SnapshotsOf(x), WithReturn(x, SnapshotsOf(x), |SnapshotsOf(x)|, Blank(x, d)), DayRow(x, d), d);
  }

  // ---- Segments ----

  lemma {:induction false} CountsBetween(x: Inputs, snaps: seq<Snapshot>, i: nat, n: nat)
    requires i < n <= |snaps|
    ensures ResetCount(x, snaps, i + 1) <= ResetCount(x, snaps, n)
    ensures ResetCount(x, snaps, i + 1) == ResetCount(x, snaps, n) <==> !ResetBetween(x, snaps, i, n)
    decreases n
  {
    if i + 1 < n {
      CountsBetween(x, snaps, i, n - 1);
      ResetStays(x, snaps, i, n - 1);
    }
  }

  lemma ReadsCompare(x: Inputs, snaps: seq<Snapshot>, p: Day, q: Day, i: nat, j: nat)
    requires i <= j < |snaps| && ReadsAt(x, snaps, p, i) && ReadsAt(x, snaps, q, j) && p.vaultReturnPct.Some? && q.vaultReturnPct.Some?
    ensures p.returnSegment == q.returnSegment <==> !ResetBetween(x, snaps, i, j)
  {
    CountsBetween(x, snaps, i, j + 1);
    ResetStays(x, snaps, i, j);
  }

  /** Two days with a return share a segment exactly when no in-range reset lies between the snapshots they read. */
  lemma SegmentsExactly(x: Inputs, a: int, b: int, i: nat, j: nat)
    requires var snaps := SnapshotsOf(x); LastOfDay(x, snaps, i, a) && LastOfDay(x, snaps, j, b) && i <= j
    requires DayRow(x, a).vaultReturnPct.Some? && DayRow(x, b).vaultReturnPct.Some?
    ensures DayRow(x, a).returnSegment == DayRow(x, b).returnSegment <==> !ResetBetween(x, SnapshotsOf(x), i, j)
  {
    ReturnExactly(x, a);
    ReturnExactly(x, b);
    ReadsCompare(x, SnapshotsOf(x), DayRow(x, a), DayRow(x, b), i, j);
  }
}

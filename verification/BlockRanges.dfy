/** Runs of blocks read in pieces: the node answers a log query over CHUNK blocks at most. */
module BlockRanges {
  const CHUNK := 100

  /** The logs of the blocks from..to, in order. */
  function LogsIn<T>(logs: nat -> seq<T>, from: nat, to: nat): seq<T>
    decreases if to < from then 0 else to - from + 1
  {
    if to < from then [] else logs(from) + LogsIn(logs, from + 1, to)
  }

  lemma {:induction false} LogsInHas<T>(logs: nat -> seq<T>, from: nat, to: nat, b: nat, i: nat)
    requires from <= b <= to && i < |logs(b)|
    ensures logs(b)[i] in LogsIn(logs, from, to)
    decreases b - from
  {
    if b == from {
      assert LogsIn(logs, from, to)[i] == logs(b)[i];
    } else {
      LogsInHas(logs, from + 1, to, b, i);
    }
  }

  lemma {:induction false} LogsInFrom<T>(logs: nat -> seq<T>, from: nat, to: nat, x: T) returns (b: nat, i: nat)
    requires x in LogsIn(logs, from, to)
    ensures from <= b <= to && i < |logs(b)| && logs(b)[i] == x
    decreases if to < from then 0 else to - from + 1
  {
    if x in logs(from) {
      b := from;
      i :| i < |logs(from)| && logs(from)[i] == x;
    } else {
      b, i := LogsInFrom(logs, from + 1, to, x);
    }
  }

  /** The ranges cover from..ceiling, in order, without gap or overlap, none longer than the node answers. */
  ghost predicate Tiles(ranges: seq<(nat, nat)>, from: nat, ceiling: nat)
    decreases |ranges|
  {
    if ranges == [] then from == ceiling + 1
    else ranges[0].0 == from <= ranges[0].1 <= ceiling && ranges[0].1 < from + CHUNK && Tiles(ranges[1..], ranges[0].1 + 1, ceiling)
  }

  lemma {:induction false} TilesSnoc(ranges: seq<(nat, nat)>, from: nat, mid: nat, to: nat)
    requires Tiles(ranges, from, mid) && mid < to <= mid + CHUNK
    ensures Tiles(ranges + [(mid + 1, to)], from, to)
    decreases |ranges|
  {
    var longer := ranges + [(mid + 1, to)];
    if ranges == [] {
      assert longer[1..] == [];
    } else {
      assert longer[0] == ranges[0] && longer[1..] == ranges[1..] + [(mid + 1, to)];
      TilesSnoc(ranges[1..], ranges[0].1 + 1, mid, to);
    }
  }

  /** The ranges so far and one more. */
  function Extended(ranges: seq<(nat, nat)>, ghost first: nat, from: nat, to: nat): (longer: seq<(nat, nat)>)
    requires first <= from <= to < from + CHUNK
    requires if from == first then ranges == [] else Tiles(ranges, first, from - 1)
    ensures |longer| == |ranges| + 1 && longer[|ranges|] == (from, to) && Tiles(longer, first, to)
  {
    if ranges == [] then
      assert [(from, to)][1..] == [];
      [(from, to)]
    else
      TilesSnoc(ranges, first, from - 1, to);
      ranges + [(from, to)]
  }

  /** A block of a tiled stretch lies in exactly one range. */
  lemma {:induction false} TilesHold(ranges: seq<(nat, nat)>, from: nat, ceiling: nat, b: nat)
    requires Tiles(ranges, from, ceiling)
    ensures from <= b <= ceiling <==> exists k :: 0 <= k < |ranges| && ranges[k].0 <= b <= ranges[k].1
    ensures forall j, k :: 0 <= j < k < |ranges| ==> ranges[j].1 < ranges[k].0
    decreases |ranges|
  {
    if ranges != [] {
      var rest := ranges[1..];
      TilesHold(rest, ranges[0].1 + 1, ceiling, b);
      forall k | 1 <= k < |ranges| ensures ranges[k] == rest[k - 1] && ranges[k].0 > ranges[0].1 {
        TilesStart(rest, ranges[0].1 + 1, ceiling, k - 1);
      }
      if exists k :: 0 <= k < |rest| && rest[k].0 <= b <= rest[k].1 {
        var k :| 0 <= k < |rest| && rest[k].0 <= b <= rest[k].1;
        assert ranges[k + 1] == rest[k];
        TilesStart(rest, ranges[0].1 + 1, ceiling, k);
      }
    }
  }

  lemma {:induction false} TilesStart(ranges: seq<(nat, nat)>, from: nat, ceiling: nat, k: nat)
    requires Tiles(ranges, from, ceiling) && k < |ranges|
    ensures from <= ranges[k].0 <= ranges[k].1 <= ceiling
    decreases |ranges|
  {
    if k > 0 { TilesStart(ranges[1..], ranges[0].1 + 1, ceiling, k - 1); }
  }
}

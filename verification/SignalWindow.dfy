/** The rolling window of one market: pruning and summing. */
module SignalWindow {
  import opened Breaker

  datatype SignalPoint = SignalPoint(ts: int, betCount: int, stake: int, liability: int)

  /** The points a prune at the given cutoff keeps, in arrival order. */
  function Keep(points: seq<SignalPoint>, cutoff: int): (kept: seq<SignalPoint>) {
    if points == [] then []
    else
      var rest := Keep(points[..|points| - 1], cutoff);
      var last := points[|points| - 1];
      if last.ts >= cutoff then rest + [last] else rest
  }

  function Sum(points: seq<SignalPoint>): WindowMetrics {
    if points == [] then WindowMetrics(0, 0, 0)
    else
      var rest := Sum(points[..|points| - 1]);
      var last := points[|points| - 1];
      WindowMetrics(rest.betCount + last.betCount, rest.stakeSum + last.stake, rest.liabilityDelta + last.liability)
  }

  /** Sums add up: over two stretches of a window, over one point, over none. */
  lemma {:induction false} SumConcat(a: seq<SignalPoint>, b: seq<SignalPoint>)
    ensures Sum(a + b).betCount == Sum(a).betCount + Sum(b).betCount
    ensures Sum(a + b).stakeSum == Sum(a).stakeSum + Sum(b).stakeSum
    ensures Sum(a + b).liabilityDelta == Sum(a).liabilityDelta + Sum(b).liabilityDelta
    decreases |b|
  {
    if b == [] {
      assert a + b == a;
    } else {
      SumConcat(a, b[..|b| - 1]);
      assert (a + b)[..|a + b| - 1] == a + b[..|b| - 1];
    }
  }

  lemma SumOne(p: SignalPoint)
    ensures Sum([p]) == WindowMetrics(p.betCount, p.stake, p.liability)
    ensures Sum([]) == WindowMetrics(0, 0, 0)
  {
    assert [p][..0] == [];
  }

  /** A prune takes each stretch on its own, keeps a point or drops it by its time alone, and keeps the order. */
  lemma {:induction false} KeepConcat(a: seq<SignalPoint>, b: seq<SignalPoint>, cutoff: int)
    ensures Keep(a + b, cutoff) == Keep(a, cutoff) + Keep(b, cutoff)
    decreases |b|
  {
    if b == [] {
      assert a + b == a;
    } else {
      KeepConcat(a, b[..|b| - 1], cutoff);
      assert (a + b)[..|a + b| - 1] == a + b[..|b| - 1];
    }
  }

  lemma KeepOne(p: SignalPoint, cutoff: int)
    ensures Keep([p], cutoff) == if p.ts >= cutoff then [p] else []
    ensures Keep([], cutoff) == []
  {
    assert [p][..0] == [];
  }

  lemma {:induction false} KeepAll(points: seq<SignalPoint>, cutoff: int)
    requires forall i :: 0 <= i < |points| ==> points[i].ts >= cutoff
    ensures Keep(points, cutoff) == points
  {
    if points == [] {
    } else {
      KeepAll(points[..|points| - 1], cutoff);
    }
  }

  lemma KeepAppend(points: seq<SignalPoint>, point: SignalPoint, cutoff: int)
    ensures Keep(points + [point], cutoff) == Keep(points, cutoff) + (if point.ts >= cutoff then [point] else [])
  {
    assert (points + [point])[..|points|] == points;
  }

  /** Pruning early never matters to a later, higher cutoff. */
  lemma {:induction false} KeepKeep(points: seq<SignalPoint>, low: int, high: int)
    requires low <= high
    ensures Keep(Keep(points, low), high) == Keep(points, high)
  {
    if points == [] {
    } else {
      var init, last := points[..|points| - 1], points[|points| - 1];
      KeepKeep(init, low, high);
      if last.ts >= low {
        KeepAppend(Keep(init, low), last, high);
      }
    }
  }

  /** A prune drops exactly the points older than the cutoff, each as often as it occurs. */
  lemma {:induction false} KeepCounts(points: seq<SignalPoint>, cutoff: int, p: SignalPoint)
    ensures multiset(Keep(points, cutoff))[p] == if p.ts >= cutoff then multiset(points)[p] else 0
  {
    if points == [] {
    } else {
      var init, last := points[..|points| - 1], points[|points| - 1];
      KeepCounts(init, cutoff, p);
      assert points == init + [last];
    }
  }

  /** Once every timestamp is behind the cutoff, nothing is left. */
  lemma {:induction false} KeepNothing(points: seq<SignalPoint>, cutoff: int)
    requires forall i :: 0 <= i < |points| ==> points[i].ts < cutoff
    ensures Keep(points, cutoff) == []
  {
    if points == [] {
    } else {
      KeepNothing(points[..|points| - 1], cutoff);
    }
  }
}

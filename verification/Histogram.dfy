/** Cumulative histograms and the quantile estimated from them
    (src/observability/metrics.py `observe`, deploy/observability/evidence/eval_alert_rules.py `_histogram_quantile`).
    */
module Histogram {

  // ----- observing -----

  /** How many observations are at most `x`. */
  function CountUpTo(obs: seq<real>, x: real): (n: nat)
    ensures n <= |obs|
  {
    if obs == [] then 0
    else CountUpTo(obs[..|obs| - 1], x) + if obs[|obs| - 1] <= x then 1 else 0
  }

  /** How many observations are below `x`. */
  function CountBelow(obs: seq<real>, x: real): nat {
    if obs == [] then 0
    else CountBelow(obs[..|obs| - 1], x) + if obs[|obs| - 1] < x then 1 else 0
  }

  function Sum(obs: seq<real>): real {
    if obs == [] then 0.0 else Sum(obs[..|obs| - 1]) + obs[|obs| - 1]
  }

  datatype Cell = Cell(total: nat, buckets: seq<nat>, sum: real)

  ghost predicate Increasing(bounds: seq<real>) {
    forall i, j :: 0 <= i < j < |bounds| ==> bounds[i] < bounds[j]
  }

  /** The cell is the cumulative histogram of these observations. */
  ghost predicate Summarises(bounds: seq<real>, cell: Cell, obs: seq<real>) {
    && cell.total == |obs| && cell.sum == Sum(obs) && |cell.buckets| == |bounds|
    && forall i :: 0 <= i < |bounds| ==> cell.buckets[i] == CountUpTo(obs, bounds[i])
  }

  class MetricsRegistry {
    const bounds: seq<real>
    var histograms: map<string, Cell>
    ghost var observed: map<string, seq<real>>

    ghost predicate Valid()
      reads this
    {
      && histograms.Keys == observed.Keys
      && forall k :: k in histograms ==> Summarises(bounds, histograms[k], observed[k])
    }

    constructor (bounds: seq<real>)
      ensures Valid() && this.bounds == bounds && observed == map[]
    {
      this.bounds := bounds;
      histograms, observed := map[], map[];
    }

    /** Adds one observation to a series, a negative one counting as zero. */
    method Observe(key: string, value: real)
      requires Valid()
      modifies this
      ensures Valid()
      ensures observed == old(observed)[key := (if key in old(observed) then old(observed)[key] else [])
                                               + [if value >= 0.0 then value else 0.0]]
      ensures var obs := observed[key];
              && key in histograms && histograms[key].total == |obs| && |histograms[key].buckets| == |bounds|
              && forall i :: 0 <= i < |bounds| ==> histograms[key].buckets[i] == |NotAboveIn(obs, bounds[i])|
    {
      var v := if value >= 0.0 then value else 0.0;
      var cell := if key in histograms then histograms[key] else Cell(0, seq(|bounds|, i => 0), 0.0);
      ghost var obs := if key in observed then observed[key] else [];
      var more := Add(cell, v, obs);
      histograms := histograms[key := more];
      observed := observed[key := obs + [v]];
      forall i | 0 <= i < |bounds|
        ensures more.buckets[i] == |NotAboveIn(obs + [v], bounds[i])|
      {
        CountsObservations(obs + [v], bounds[i]);
      }
    }

    method Add(cell: Cell, v: real, ghost obs: seq<real>) returns (more: Cell)
      requires Summarises(bounds, cell, obs)
      ensures Summarises(bounds, more, obs + [v])
    {
      var buckets := cell.buckets;
      for i := 0 to |bounds|
        invariant |buckets| == |bounds|
        invariant forall j :: 0 <= j < i ==> buckets[j] == CountUpTo(obs + [v], bounds[j])
        invariant forall j :: i <= j < |bounds| ==> buckets[j] == CountUpTo(obs, bounds[j])
      {
        OneMore(obs, v, bounds[i]);
        if v <= bounds[i] {
          buckets := buckets[i := buckets[i] + 1];
        }
      }
      OneMore(obs, v, 0.0);
      more := Cell(cell.total + 1, buckets, cell.sum + v);
    }
  }

  /** The observations that are at most `x`, by position. */
  ghost function NotAboveIn(obs: seq<real>, x: real): set<int> {
    set i | 0 <= i < |obs| && obs[i] <= x
  }

  lemma {:induction false} CountsObservations(obs: seq<real>, x: real)
    ensures CountUpTo(obs, x) == |NotAboveIn(obs, x)|
  {
    if obs == [] {
      assert NotAboveIn(obs, x) == {};
    } else {
      var n := |obs| - 1;
      CountsObservations(obs[..n], x);
      if obs[n] <= x {
        assert NotAboveIn(obs, x) == NotAboveIn(obs[..n], x) + {n};
      } else {
        assert NotAboveIn(obs, x) == NotAboveIn(obs[..n], x);
      }
    }
  }

  lemma OneMore(obs: seq<real>, v: real, x: real)
    ensures CountUpTo(obs + [v], x) == CountUpTo(obs, x) + if v <= x then 1 else 0
    ensures Sum(obs + [v]) == Sum(obs) + v
  {
    assert (obs + [v])[..|obs|] == obs;
  }

  // ----- estimating -----

  /** A quantile estimate; `Unbounded` is the +Inf bound. */
  datatype Estimate = At(value: real) | Unbounded

  predicate NotAbove(a: Estimate, b: Estimate) {
    b.Unbounded? || (a.At? && a.value <= b.value)
  }

  /** The bound of a bucket; the last bucket has none. */
  function Bound(bounds: seq<real>, i: nat): Estimate
    requires i <= |bounds|
  {
    if i < |bounds| then At(bounds[i]) else Unbounded
  }

  /** The counts with every dip raised to the running maximum. */
  function Repaired(counts: seq<nat>): (out: seq<nat>)
    ensures |out| == |counts|
  {
    if |counts| <= 1 then counts
    else
      var n := |counts| - 1;
      var init := Repaired(counts[..n]);
      init + [if counts[n] < init[n - 1] then init[n - 1] else counts[n]]
  }

  ghost predicate Nondecreasing(counts: seq<nat>) {
    forall i, j :: 0 <= i <= j < |counts| ==> counts[i] <= counts[j]
  }

  lemma {:induction false} RepairedIsNondecreasing(counts: seq<nat>)
    ensures Nondecreasing(Repaired(counts))
  {
    if |counts| > 1 {
      RepairedIsNondecreasing(counts[..|counts| - 1]);
    }
  }

  /** Each repaired count is the largest of the counts up to it. */
  lemma {:induction false} RepairedIsRunningMaximum(counts: seq<nat>, i: nat)
    requires i < |counts|
    ensures (forall j :: 0 <= j <= i ==> counts[j] <= Repaired(counts)[i])
    ensures exists j :: 0 <= j <= i && counts[j] == Repaired(counts)[i]
  {
    var n := |counts| - 1;
    if n == 0 {
      assert counts[0] == Repaired(counts)[i];
    } else {
      var m := if i < n then i else n - 1;
      RepairedIsRunningMaximum(counts[..n], m);
      var j :| 0 <= j <= m && counts[..n][j] == Repaired(counts[..n])[m];
      assert counts[j] == Repaired(counts[..n])[m];
      assert forall k :: 0 <= k <= m ==> counts[k] == counts[..n][k];
      assert counts[j] == Repaired(counts)[i] || counts[i] == Repaired(counts)[i];
    }
  }

  /** The first bucket whose count reaches the rank; one past the end when none does. */
  function FirstReaching(counts: seq<nat>, rank: real): (b: nat)
    ensures b <= |counts| && (b < |counts| ==> counts[b] as real >= rank)
    ensures forall i :: 0 <= i < b ==> (counts[i] as real) < rank
  {
    if counts == [] || counts[0] as real >= rank then 0 else FirstReaching(counts[1..], rank) + 1
  }

  function WidthOf(bounds: seq<real>, b: nat): real
    requires 1 <= b <= |bounds|
  {
    if b < |bounds| then bounds[b] - bounds[b - 1]
    else if b >= 2 then bounds[b - 1] - bounds[b - 2]
    else bounds[b - 1]
  }

  /** Linear interpolation in the bucket the rank falls into; the unbounded bucket is as wide as the one before it. */
  function Interpolated(bounds: seq<real>, counts: seq<nat>, rank: real, b: nat): real
    requires 1 <= b <= |bounds| && |counts| == |bounds| + 1 && counts[b - 1] < counts[b]
  {
    bounds[b - 1] + (rank - counts[b - 1] as real) / (counts[b] - counts[b - 1]) as real * WidthOf(bounds, b)
  }

  /** The estimate for a positive rank. */
  function ByRank(rank: real, bounds: seq<real>, counts: seq<nat>): Estimate
    requires |counts| == |bounds| + 1
  {
    var b := FirstReaching(counts, rank);
    if b > |bounds| then Unbounded
    else if b == 0 then Bound(bounds, 0)
    else At(Interpolated(bounds, counts, rank, b))
  }

  function EstimateAt(rank: real, bounds: seq<real>, counts: seq<nat>): Estimate
    requires |counts| == |bounds| + 1
  {
    if counts[|bounds|] == 0 then At(0.0)
    else if rank <= 0.0 then Bound(bounds, 0)
    else ByRank(rank, bounds, counts)
  }

  /** The estimate from repaired counts. */
  function EstimateOf(q: real, bounds: seq<real>, counts: seq<nat>): Estimate
    requires |counts| == |bounds| + 1
  {
    EstimateAt(Rank(q, counts[|bounds|]), bounds, counts)
  }

  /** `q` times the total, as repeated addition. */
  function Rank(q: real, total: nat): real {
    if total == 0 then 0.0 else Rank(q, total - 1) + q
  }

  lemma {:induction false} RankIsProduct(q: real, total: nat)
    ensures Rank(q, total) == q * total as real
  {
    if total > 0 {
      RankIsProduct(q, total - 1);
    }
  }

  /** The estimate as computed: repair, then scan for the bucket the rank falls into. */
  method HistogramQuantile(q: real, bounds: seq<real>, counts: seq<nat>) returns (r: Estimate, ghost rank: real)
    requires |counts| == |bounds| + 1
    ensures r == EstimateOf(q, bounds, Repaired(counts))
    ensures rank == Rank(q, Repaired(counts)[|bounds|])
    ensures forall b :: PlainEstimate(bounds, Repaired(counts), rank, b, r)
  {
    var items := Repair(counts);
    var place := RankOf(q, items[|bounds|]);
    r := EstimateByScan(place, bounds, items);
    rank := place;
    RepairedIsNondecreasing(counts);
    forall b: nat
      ensures PlainEstimate(bounds, items, rank, b, r)
    {
      EstimateIsPlain(bounds, items, rank, b);
    }
  }

  method RankOf(q: real, total: nat) returns (rank: real)
    ensures rank == Rank(q, total)
  {
    RankIsProduct(q, total);
    rank := q * total as real;
  }

  method EstimateByScan(rank: real, bounds: seq<real>, items: seq<nat>) returns (r: Estimate)
    requires |items| == |bounds| + 1
    ensures r == EstimateAt(rank, bounds, items)
  {
    if items[|bounds|] == 0 {
      return At(0.0);
    }
    if rank <= 0.0 {
      return Bound(bounds, 0);
    }
    var b := Scan(items, rank);
    if b == |items| {
      return Unbounded;
    }
    if b == 0 {
      return Bound(bounds, 0);
    }
    if items[b] <= items[b - 1] {
      assert false;
      return Unbounded;
    }
    r := At(Interpolated(bounds, items, rank, b));
  }

  /** Raises every dip in place. */
  method Repair(counts: seq<nat>) returns (items: seq<nat>)
    ensures items == Repaired(counts)
  {
    items := counts;
    if counts == [] {
      return;
    }
    assert counts[..1] == [counts[0]];
    for i := 1 to |items|
      invariant |items| == |counts| && items[..i] == Repaired(counts[..i]) && items[i..] == counts[i..]
    {
      assert counts[..i + 1][..i] == counts[..i] && items[i] == items[i..][0] && items[i - 1] == items[..i][i - 1];
      ghost var before := items;
      if items[i] < items[i - 1] {
        items := items[i := items[i - 1]];
      }
      assert items[..i + 1] == before[..i] + [items[i]] && items[i + 1..] == before[i..][1..];
    }
    assert counts[..|counts|] == counts && items[..|counts|] == items;
  }

  method Scan(items: seq<nat>, rank: real) returns (b: nat)
    ensures b == FirstReaching(items, rank)
  {
    b := 0;
    while b < |items| && (items[b] as real) < rank
      invariant b <= |items| && FirstReaching(items, rank) == b + FirstReaching(items[b..], rank)
    {
      assert items[b..][1..] == items[b + 1..];
      b := b + 1;
    }
  }

  // ----- what the estimate is -----

  /** The bucket the rank falls into: its count reaches it, and the one before does not. */
  predicate FallsInto(counts: seq<nat>, rank: real, b: nat) {
    b < |counts| && counts[b] as real >= rank && (b > 0 ==> (counts[b - 1] as real) < rank)
  }

  /** In plain terms: nothing observed is zero, a rank that is not positive is the first bound, one beyond the total has
      no bound; the first bucket answers its bound, and any other one what lies within it. */
  ghost predicate PlainEstimate(bounds: seq<real>, counts: seq<nat>, rank: real, b: nat, r: Estimate)
    requires |counts| == |bounds| + 1
  {
    var total := counts[|bounds|];
    && (total == 0 ==> r == At(0.0))
    && (total > 0 && rank <= 0.0 ==> if bounds == [] then r == Unbounded else r == At(bounds[0]))
    && (total > 0 && rank > total as real ==> r == Unbounded)
    && (total > 0 && rank > 0.0 && FallsInto(counts, rank, b) ==>
          if b == 0 then if bounds == [] then r == Unbounded else r == At(bounds[0])
          else r.At? && Within(bounds, counts, rank, b, r.value))
  }

  /** As far into the bucket as the rank goes into its count, so at its full count its upper bound. Past the last bound
      it goes on by the width of the bucket before, or by a lone bound's own value. */
  ghost predicate Within(bounds: seq<real>, counts: seq<nat>, rank: real, b: nat, r: real)
    requires 1 <= b <= |bounds| && |counts| == |bounds| + 1
  {
    && (r - bounds[b - 1]) * (counts[b] as real - counts[b - 1] as real)
       == (rank - counts[b - 1] as real)
          * (if b < |bounds| then bounds[b] - bounds[b - 1]
             else if b >= 2 then bounds[b - 1] - bounds[b - 2] else bounds[b - 1])
    && (b < |bounds| && rank == counts[b] as real ==> r == bounds[b])
  }

  lemma EstimateIsPlain(bounds: seq<real>, counts: seq<nat>, rank: real, b: nat)
    requires |counts| == |bounds| + 1 && Nondecreasing(counts)
    ensures PlainEstimate(bounds, counts, rank, b, EstimateAt(rank, bounds, counts))
  {
    if rank > 0.0 && FallsInto(counts, rank, b) {
      FallsOnce(counts, rank, b);
      if b > 0 {
        InterpolatedIsPlain(bounds, counts, rank, b);
      }
    }
  }

  lemma InterpolatedIsPlain(bounds: seq<real>, counts: seq<nat>, rank: real, b: nat)
    requires 1 <= b <= |bounds| && |counts| == |bounds| + 1 && counts[b - 1] < counts[b]
    ensures Within(bounds, counts, rank, b, Interpolated(bounds, counts, rank, b))
  {
    StepTimes(rank - counts[b - 1] as real, (counts[b] - counts[b - 1]) as real, WidthOf(bounds, b));
  }

  lemma {:induction false} FallsOnce(counts: seq<nat>, rank: real, b: nat)
    requires Nondecreasing(counts) && FallsInto(counts, rank, b)
    ensures FirstReaching(counts, rank) == b
  {
    if b > 0 {
      assert counts[0] <= counts[b - 1];
      FallsOnce(counts[1..], rank, b - 1);
    }
  }

  lemma StepTimes(part: real, whole: real, width: real)
    requires whole > 0.0
    ensures part / whole * width * whole == part * width
    ensures part == whole ==> part / whole * width == width
  {
    assert part / whole * whole == part;
  }

  // ----- what the estimate is worth -----

  /** The counts a histogram exposes: one per bound, then the total. */
  ghost function Exposed(bounds: seq<real>, obs: seq<real>): (counts: seq<nat>)
    ensures |counts| == |bounds| + 1 && counts[|bounds|] == |obs|
    ensures forall i :: 0 <= i < |bounds| ==> counts[i] == CountUpTo(obs, bounds[i])
  {
    seq(|bounds|, i requires 0 <= i < |bounds| => CountUpTo(obs, bounds[i])) + [|obs|]
  }

  lemma {:induction false} CountMonotone(obs: seq<real>, x: real, y: real)
    requires x <= y
    ensures CountUpTo(obs, x) <= CountUpTo(obs, y)
  {
    if obs != [] {
      CountMonotone(obs[..|obs| - 1], x, y);
    }
  }

  lemma {:induction false} CountBelowUpTo(obs: seq<real>, x: real, y: real)
    ensures x < y ==> CountUpTo(obs, x) <= CountBelow(obs, y)
    ensures CountBelow(obs, x) <= CountUpTo(obs, x)
  {
    if obs != [] {
      CountBelowUpTo(obs[..|obs| - 1], x, y);
    }
  }

  lemma ExposedIsNondecreasing(bounds: seq<real>, obs: seq<real>)
    requires Increasing(bounds)
    ensures Nondecreasing(Exposed(bounds, obs))
  {
    var counts := Exposed(bounds, obs);
    forall i, j | 0 <= i <= j < |counts|
      ensures counts[i] <= counts[j]
    {
      if i < j < |bounds| {
        CountMonotone(obs, bounds[i], bounds[j]);
      }
    }
  }

  lemma {:induction false} RepairIsIdle(counts: seq<nat>)
    requires Nondecreasing(counts)
    ensures Repaired(counts) == counts
  {
    if |counts| > 1 {
      var n := |counts| - 1;
      RepairIsIdle(counts[..n]);
      assert counts == counts[..n] + [counts[n]];
    }
  }

  /** On the counts of any history the running-maximum repair changes nothing. */
  lemma HistoriesNeedNoRepair(bounds: seq<real>, obs: seq<real>)
    requires Increasing(bounds)
    ensures Repaired(Exposed(bounds, obs)) == Exposed(bounds, obs)
  {
    ExposedIsNondecreasing(bounds, obs);
    RepairIsIdle(Exposed(bounds, obs));
  }

  /** `v` is the observation of this rank: fewer than `rank` lie below it, at least `rank` do not lie above. */
  ghost predicate OrderStatistic(obs: seq<real>, rank: real, v: real) {
    v in obs && (CountBelow(obs, v) as real) < rank <= CountUpTo(obs, v) as real
  }

  lemma {:induction false} CoveredCount(obs: seq<real>, u: real, v: real)
    requires forall i :: 0 <= i < |obs| && obs[i] < v ==> obs[i] <= u
    ensures CountBelow(obs, v) <= CountUpTo(obs, u)
  {
    if obs != [] {
      CoveredCount(obs[..|obs| - 1], u, v);
    }
  }

  lemma {:induction false} GreatestBelow(obs: seq<real>, v: real) returns (u: real)
    requires CountBelow(obs, v) > 0
    ensures u in obs && u < v && forall i :: 0 <= i < |obs| && obs[i] < v ==> obs[i] <= u
  {
    var n := |obs| - 1;
    if CountBelow(obs[..n], v) == 0 {
      u := obs[n];
      NoneBelow(obs[..n], v);
    } else {
      u := GreatestBelow(obs[..n], v);
      assert forall i :: 0 <= i < n ==> obs[i] == obs[..n][i];
      if u < obs[n] < v {
        u := obs[n];
      }
    }
  }

  lemma {:induction false} NoneBelow(obs: seq<real>, v: real)
    requires CountBelow(obs, v) == 0
    ensures forall i :: 0 <= i < |obs| ==> v <= obs[i]
  {
    if obs != [] {
      NoneBelow(obs[..|obs| - 1], v);
    }
  }

  lemma {:induction false} Greatest(obs: seq<real>) returns (v: real)
    requires obs != []
    ensures v in obs && CountUpTo(obs, v) == |obs|
  {
    var n := |obs| - 1;
    v := obs[n];
    if n > 0 {
      var w := Greatest(obs[..n]);
      CountMonotone(obs[..n], w, if v < w then w else v);
      v := if v < w then w else v;
    }
  }

  /** Every rank up to the number of observations has its order statistic. */
  lemma OrderStatisticExists(obs: seq<real>, rank: real) returns (v: real)
    requires 0.0 < rank <= |obs| as real
    ensures OrderStatistic(obs, rank, v)
  {
    v := Greatest(obs);
    while CountBelow(obs, v) as real >= rank
      invariant v in obs && CountUpTo(obs, v) as real >= rank
      decreases CountBelow(obs, v)
    {
      var u := GreatestBelow(obs, v);
      CoveredCount(obs, u, v);
      StrictlyFewer(obs, u, v);
      v := u;
    }
  }

  lemma {:induction false} StrictlyFewer(obs: seq<real>, u: real, v: real)
    requires u in obs && u < v
    ensures CountBelow(obs, u) < CountBelow(obs, v)
  {
    var n := |obs| - 1;
    BelowMonotone(obs[..n], u, v);
    if obs[n] != u {
      assert u in obs[..n];
      StrictlyFewer(obs[..n], u, v);
    }
  }

  lemma {:induction false} BelowMonotone(obs: seq<real>, u: real, v: real)
    requires u <= v
    ensures CountBelow(obs, u) <= CountBelow(obs, v)
  {
    if obs != [] {
      BelowMonotone(obs[..|obs| - 1], u, v);
    }
  }

  lemma DivideInside(part: real, whole: real, width: real)
    requires 0.0 < part <= whole && 0.0 < width
    ensures 0.0 < part / whole * width <= width
  {
    var f := part / whole;
    assert f * whole == part;
    assert 0.0 < f <= 1.0;
  }

  lemma DivideMonotone(a: real, b: real, whole: real, width: real)
    requires a <= b && 0.0 < whole && 0.0 <= width
    ensures a / whole * width <= b / whole * width
  {
    assert a / whole <= b / whole;
  }

  /** An interpolated estimate stays in its bucket, and above its lower end if the bucket has a width. */
  lemma InterpolationStaysInside(bounds: seq<real>, counts: seq<nat>, rank: real, b: nat)
    requires Increasing(bounds) && (|bounds| == 1 ==> bounds[0] >= 0.0)
    requires |counts| == |bounds| + 1 && 1 <= b <= |bounds|
    requires (counts[b - 1] as real) < rank <= counts[b] as real
    ensures counts[b - 1] < counts[b]
    ensures bounds[b - 1] <= Interpolated(bounds, counts, rank, b)
    ensures (|bounds| == 1 ==> bounds[0] > 0.0) ==> bounds[b - 1] < Interpolated(bounds, counts, rank, b)
    ensures b < |bounds| ==> Interpolated(bounds, counts, rank, b) <= bounds[b]
  {
    if WidthOf(bounds, b) > 0.0 {
      DivideInside(rank - counts[b - 1] as real, (counts[b] - counts[b - 1]) as real, WidthOf(bounds, b));
    }
  }

  /** For any history and any q in (0, 1], the estimate lies in the same bucket as the true order statistic:
      exactly the bounds that are not below the one are not below the other. */
  lemma EstimateSharesTheBucket(q: real, bounds: seq<real>, obs: seq<real>, v: real, i: nat)
    requires Increasing(bounds) && (|bounds| == 1 ==> bounds[0] > 0.0) && i < |bounds|
    requires 0.0 < q <= 1.0 && OrderStatistic(obs, Rank(q, |obs|), v)
    ensures v <= bounds[i] <==> NotAbove(EstimateOf(q, bounds, Exposed(bounds, obs)), At(bounds[i]))
  {
    RankIsReached(q, |obs|);
    RankSharesTheBucket(Rank(q, |obs|), bounds, obs, v, i);
  }

  /** A lone bound that is not positive is taken for the width of the unbounded bucket: the estimate is never above the
      bound, so it shares the bucket of the order statistic if and only if that is not above the bound either. */
  lemma LoneBoundMustBePositive(q: real, bounds: seq<real>, obs: seq<real>, v: real)
    requires |bounds| == 1 && bounds[0] <= 0.0
    requires 0.0 < q <= 1.0 && OrderStatistic(obs, Rank(q, |obs|), v)
    ensures (v <= bounds[0] <==> NotAbove(EstimateOf(q, bounds, Exposed(bounds, obs)), At(bounds[0])))
       <==> v <= bounds[0]
  {
    RankIsReached(q, |obs|);
    LoneEstimateIsBelow(Rank(q, |obs|), bounds, Exposed(bounds, obs));
  }

  lemma LoneEstimateIsBelow(rank: real, bounds: seq<real>, counts: seq<nat>)
    requires |bounds| == 1 && bounds[0] <= 0.0 && |counts| == 2 && 0.0 < rank <= counts[1] as real
    ensures NotAbove(EstimateAt(rank, bounds, counts), At(bounds[0]))
  {
    if FirstReaching(counts, rank) == 1 {
      DivideBack(rank - counts[0] as real, (counts[1] - counts[0]) as real, bounds[0]);
    }
  }

  lemma DivideBack(part: real, whole: real, width: real)
    requires 0.0 < part && 0.0 < whole && width <= 0.0
    ensures part / whole * width <= 0.0
  {
    assert part / whole > 0.0;
  }

  lemma RankSharesTheBucket(rank: real, bounds: seq<real>, obs: seq<real>, v: real, i: nat)
    requires Increasing(bounds) && (|bounds| == 1 ==> bounds[0] > 0.0) && i < |bounds|
    requires 0.0 < rank <= |obs| as real && OrderStatistic(obs, rank, v)
    ensures v <= bounds[i] <==> NotAbove(EstimateAt(rank, bounds, Exposed(bounds, obs)), At(bounds[i]))
  {
    ExposedIsNondecreasing(bounds, obs);
    BucketOfOrderStatistic(bounds, obs, rank, v, i);
    ByRankWithin(rank, bounds, Exposed(bounds, obs), i);
  }

  lemma ByRankWithin(rank: real, bounds: seq<real>, counts: seq<nat>, i: nat)
    requires Increasing(bounds) && (|bounds| == 1 ==> bounds[0] > 0.0) && i < |bounds|
    requires |counts| == |bounds| + 1 && Nondecreasing(counts) && 0.0 < rank <= counts[|bounds|] as real
    ensures NotAbove(ByRank(rank, bounds, counts), At(bounds[i])) <==> counts[i] as real >= rank
  {
    var b := FirstReaching(counts, rank);
    if b >= 1 {
      InterpolationStaysInside(bounds, counts, rank, b);
    }
  }

  lemma {:induction false} RankIsReached(q: real, n: nat)
    requires 0.0 < q <= 1.0
    ensures Rank(q, n) <= n as real
    ensures n > 0 ==> Rank(q, n) > 0.0
  {
    if n > 0 {
      RankIsReached(q, n - 1);
    }
  }

  /** The order statistic is within a bound exactly when that bound's count reaches the rank. */
  lemma BucketOfOrderStatistic(bounds: seq<real>, obs: seq<real>, rank: real, v: real, i: nat)
    requires OrderStatistic(obs, rank, v) && i < |bounds|
    ensures v <= bounds[i] <==> CountUpTo(obs, bounds[i]) as real >= rank
  {
    if v <= bounds[i] {
      CountMonotone(obs, v, bounds[i]);
    } else {
      CountBelowUpTo(obs, bounds[i], v);
    }
  }

  /** The estimate never falls when q grows, over all q: below 0, inside [0, 1] and above 1. */
  lemma EstimateIsMonotone(q: real, p: real, bounds: seq<real>, obs: seq<real>)
    requires Increasing(bounds) && (|bounds| == 1 ==> bounds[0] >= 0.0) && q <= p
    ensures NotAbove(EstimateOf(q, bounds, Exposed(bounds, obs)), EstimateOf(p, bounds, Exposed(bounds, obs)))
  {
    RankIsMonotone(q, p, |obs|);
    AtIsMonotone(Rank(q, |obs|), Rank(p, |obs|), bounds, Exposed(bounds, obs));
  }

  /** A lone negative bound is where it can fall: one observation, half of it and all of it. */
  lemma LoneNegativeBoundFalls(bound: real)
    requires bound < 0.0
    ensures var counts := Exposed([bound], [0.0]);
            !NotAbove(EstimateOf(0.5, [bound], counts), EstimateOf(1.0, [bound], counts))
  {
    assert [0.0][..0] == [];
    assert CountUpTo([0.0], bound) == 0;
    assert Exposed([bound], [0.0]) == [0, 1];
  }

  lemma AtIsMonotone(rank: real, more: real, bounds: seq<real>, counts: seq<nat>)
    requires Increasing(bounds) && (|bounds| == 1 ==> bounds[0] >= 0.0) && |counts| == |bounds| + 1 && rank <= more
    ensures NotAbove(EstimateAt(rank, bounds, counts), EstimateAt(more, bounds, counts))
  {
    RanksAreMonotone(rank, more, bounds, counts);
    FirstBoundIsLeast(more, bounds, counts);
  }

  lemma {:induction false} RankIsMonotone(q: real, p: real, n: nat)
    requires q <= p
    ensures Rank(q, n) <= Rank(p, n)
  {
    if n > 0 {
      RankIsMonotone(q, p, n - 1);
    }
  }

  lemma FirstBoundIsLeast(rank: real, bounds: seq<real>, counts: seq<nat>)
    requires Increasing(bounds) && (|bounds| == 1 ==> bounds[0] >= 0.0) && |counts| == |bounds| + 1
    ensures NotAbove(Bound(bounds, 0), ByRank(rank, bounds, counts))
  {
    var b := FirstReaching(counts, rank);
    if 1 <= b <= |bounds| {
      InterpolationStaysInside(bounds, counts, rank, b);
    }
  }

  lemma RanksAreMonotone(rank: real, more: real, bounds: seq<real>, counts: seq<nat>)
    requires Increasing(bounds) && (|bounds| == 1 ==> bounds[0] >= 0.0)
    requires |counts| == |bounds| + 1 && rank <= more
    ensures NotAbove(ByRank(rank, bounds, counts), ByRank(more, bounds, counts))
  {
    var b, c := FirstReaching(counts, rank), FirstReaching(counts, more);
    FirstIsMonotone(counts, rank, more);
    if b < c {
      LaterBucketIsAbove(rank, more, bounds, counts);
    } else if 1 <= b <= |bounds| {
      InterpolationStaysInside(bounds, counts, rank, b);
      InterpolationIsMonotone(bounds, counts, rank, more, b);
    }
  }

  lemma InterpolationIsMonotone(bounds: seq<real>, counts: seq<nat>, rank: real, more: real, b: nat)
    requires Increasing(bounds) && (|bounds| == 1 ==> bounds[0] >= 0.0)
    requires |counts| == |bounds| + 1 && 1 <= b <= |bounds|
    requires counts[b - 1] < counts[b] && rank <= more
    ensures Interpolated(bounds, counts, rank, b) <= Interpolated(bounds, counts, more, b)
  {
    DivideMonotone(rank - counts[b - 1] as real, more - counts[b - 1] as real, (counts[b] - counts[b - 1]) as real,
                   WidthOf(bounds, b));
  }

  lemma {:induction false} FirstIsMonotone(counts: seq<nat>, rank: real, more: real)
    requires rank <= more
    ensures FirstReaching(counts, rank) <= FirstReaching(counts, more)
  {
    if counts != [] {
      FirstIsMonotone(counts[1..], rank, more);
    }
  }

  lemma LaterBucketIsAbove(rank: real, more: real, bounds: seq<real>, counts: seq<nat>)
    requires Increasing(bounds) && (|bounds| == 1 ==> bounds[0] >= 0.0) && |counts| == |bounds| + 1
    requires FirstReaching(counts, rank) < FirstReaching(counts, more)
    ensures NotAbove(ByRank(rank, bounds, counts), ByRank(more, bounds, counts))
  {
    var b, c := FirstReaching(counts, rank), FirstReaching(counts, more);
    if b >= 1 && b < |bounds| {
      InterpolationStaysInside(bounds, counts, rank, b);
    }
    if c <= |bounds| {
      InterpolationStaysInside(bounds, counts, more, c);
      assert bounds[b] <= bounds[c - 1];
    }
  }
}

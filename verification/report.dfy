/** The body of `main`: read the prices, summarize the completed trials, and
    either report five numbers or exit with status 1. */
module Report {
  import opened Creation
  import opened Stats
  import opened Runner
  import Cli

  /** The five numbers `main` prints, in printing order. */
  datatype Summary = Summary(
    avgCost: nat,
    avgClusters: nat,
    avgDreamMatters: nat,
    medianDreamMatters: nat,
    medianClusters: nat)

  /** What the process does: print the summary, or print a message and exit. */
  datatype Outcome = Printed(summary: Summary) | Exited(code: int, message: string)

  /** `clusters_spent` of every trial, in order. */
  function ClusterCounts(sims: seq<UmbralCreation>): (xs: seq<nat>)
    ensures |xs| == |sims|
    ensures forall i :: 0 <= i < |sims| ==> xs[i] == sims[i].clustersSpent
  {
    seq(|sims|, i requires 0 <= i < |sims| => sims[i].clustersSpent)
  }

  /** `dream_matters_spent` of every trial, in order. */
  function DreamMatterCounts(sims: seq<UmbralCreation>): (xs: seq<nat>)
    ensures |xs| == |sims|
    ensures forall i :: 0 <= i < |sims| ==> xs[i] == sims[i].dreamMattersSpent
  {
    seq(|sims|, i requires 0 <= i < |sims| => sims[i].dreamMattersSpent)
  }

  /** Cost of everything the trials spent, priced with the cost table. */
  function TotalCost(sims: seq<UmbralCreation>, prices: Cli.CostTable): nat
  {
    Sum(ClusterCounts(sims)) * prices.clusterCost
      + Sum(DreamMatterCounts(sims)) * prices.dreamMatterCost
  }

  /** The aggregation of `main` with N = |sims| trials. */
  function Aggregate(sims: seq<UmbralCreation>, prices: Cli.CostTable): (r: Summary)
    requires |sims| >= 1
    // averages truncate the totals
    ensures TruncatedMean(r.avgClusters, Sum(ClusterCounts(sims)), |sims|)
    ensures TruncatedMean(r.avgDreamMatters, Sum(DreamMatterCounts(sims)), |sims|)
    // the average cost divides the combined total cost, not the averages
    ensures TruncatedMean(r.avgCost, TotalCost(sims, prices), |sims|)
    // each median is a value some trial spent, with at least N/2 + 1 trials at
    // or below it and at least N - N/2 at or above it
    ensures r.medianClusters in multiset(ClusterCounts(sims))
    ensures Count(ClusterCounts(sims), Below, r.medianClusters) >= |sims| / 2 + 1
    ensures Count(ClusterCounts(sims), Above, r.medianClusters) >= |sims| - |sims| / 2
    ensures r.medianDreamMatters in multiset(DreamMatterCounts(sims))
    ensures Count(DreamMatterCounts(sims), Below, r.medianDreamMatters) >= |sims| / 2 + 1
    ensures Count(DreamMatterCounts(sims), Above, r.medianDreamMatters) >= |sims| - |sims| / 2
  {
    var n := |sims|;
    var clusters, dreamMatters := ClusterCounts(sims), DreamMatterCounts(sims);
    var avgCost := TruncDiv(TotalCost(sims, prices), n);
    var avgClusters := TruncDiv(Sum(clusters), n);
    var avgDreamMatters := TruncDiv(Sum(dreamMatters), n);
    Summary(avgCost, avgClusters, avgDreamMatters, Median(dreamMatters), Median(clusters))
  }

  /** `x <= y` survives multiplication by a natural number. */
  lemma MulMonotone(x: nat, y: nat, k: nat)
    requires x <= y
    ensures x * k <= y * k
  {
  }

  /** Truncating a priced total is never below pricing truncated parts. */
  lemma PricedMeanBound(q: nat, qa: nat, qb: nat, ta: nat, tb: nat, pa: nat, pb: nat, n: nat)
    requires n >= 1
    requires TruncatedMean(qa, ta, n) && TruncatedMean(qb, tb, n)
    requires TruncatedMean(q, ta * pa + tb * pb, n)
    ensures q >= qa * pa + qb * pb
  {
    var x := qa * pa + qb * pb;
    MulMonotone(qa * n, ta, pa);
    MulMonotone(qb * n, tb, pb);
    assert x * n == (qa * n) * pa + (qb * n) * pb;
    if x > q {
      MulMonotone(q + 1, x, n);
    }
  }

  /** Dividing the combined total is never below pricing the truncated
      averages: the average cost is never below the priced averages. */
  lemma AvgCostAtLeastPricedAverages(sims: seq<UmbralCreation>, prices: Cli.CostTable)
    requires |sims| >= 1
    ensures var r := Aggregate(sims, prices);
      r.avgCost >= r.avgClusters * prices.clusterCost + r.avgDreamMatters * prices.dreamMatterCost
  {
    var r := Aggregate(sims, prices);
    PricedMeanBound(r.avgCost, r.avgClusters, r.avgDreamMatters,
      Sum(ClusterCounts(sims)), Sum(DreamMatterCounts(sims)),
      prices.clusterCost, prices.dreamMatterCost, |sims|);
  }

  /** The two ways differ: two finished trials spending 245 and 320 clusters
      (the cheapest path, and one with an extra Crude retry), at 3 per cluster
      and nothing per dream matter, average 847 in cost while their truncated
      average of 282 clusters prices at 846. */
  lemma AvgCostDiffersFromPricedAverages()
    ensures var sims := [UmbralCreation(Master, 245, 1), UmbralCreation(Master, 320, 1)];
      var r := Aggregate(sims, Cli.CostTable(3, 0));
      r.avgCost == 847 && r.avgClusters * 3 == 846
  {
    var sims := [UmbralCreation(Master, 245, 1), UmbralCreation(Master, 320, 1)];
    var counts := ClusterCounts(sims);
    assert counts[0] == 245 && counts[1] == 320;
    assert counts[1..][0] == 320 && |counts[1..][1..]| == 0;
    assert Sum(counts[1..][1..]) == 0;
    assert Sum(counts[1..]) == 320;
    assert Sum(counts) == 565;
    var dreams := DreamMatterCounts(sims);
    var r := Aggregate(sims, Cli.CostTable(3, 0));
    assert TotalCost(sims, Cli.CostTable(3, 0)) == 1695;
    assert r.avgCost * 2 <= 1695 < (r.avgCost + 1) * 2;
    assert r.avgClusters * 2 <= 565 < (r.avgClusters + 1) * 2;
  }

  /** A truncated mean of values that are all at least `c` is at least `c`. */
  lemma MeanAtLeast(q: nat, xs: seq<nat>, c: nat)
    requires |xs| >= 1
    requires forall i :: 0 <= i < |xs| ==> xs[i] >= c
    requires TruncatedMean(q, Sum(xs), |xs|)
    ensures q >= c
  {
    SumAtLeast(xs, c);
    if q < c {
      MulMonotone(q + 1, c, |xs|);
    }
  }

  /** A value taken from a list whose values are all at least `c` is at least `c`. */
  lemma MemberAtLeast(m: nat, xs: seq<nat>, c: nat)
    requires m in multiset(xs)
    requires forall i :: 0 <= i < |xs| ==> xs[i] >= c
    ensures m >= c
  {
    var i :| 0 <= i < |xs| && xs[i] == m;
  }

  /** Every finished, well-spent trial spent at least 245 clusters and one
      dream matter. */
  lemma FinishedCounts(sims: seq<UmbralCreation>)
    requires forall i :: 0 <= i < |sims| ==> IsDone(sims[i]) && WellSpent(sims[i])
    ensures forall i :: 0 <= i < |sims| ==> ClusterCounts(sims)[i] >= 245
    ensures forall i :: 0 <= i < |sims| ==> DreamMatterCounts(sims)[i] >= 1
  {
  }

  /** The averages of finished, well-spent trials. */
  lemma FinishedAverages(sims: seq<UmbralCreation>, prices: Cli.CostTable)
    requires |sims| >= 1
    requires forall i :: 0 <= i < |sims| ==> IsDone(sims[i]) && WellSpent(sims[i])
    ensures Aggregate(sims, prices).avgClusters >= 245
    ensures Aggregate(sims, prices).avgDreamMatters >= 1
  {
    var r := Aggregate(sims, prices);
    FinishedCounts(sims);
    MeanAtLeast(r.avgClusters, ClusterCounts(sims), 245);
    MeanAtLeast(r.avgDreamMatters, DreamMatterCounts(sims), 1);
  }

  /** The medians of finished, well-spent trials. */
  lemma FinishedMedians(sims: seq<UmbralCreation>, prices: Cli.CostTable)
    requires |sims| >= 1
    requires forall i :: 0 <= i < |sims| ==> IsDone(sims[i]) && WellSpent(sims[i])
    ensures Aggregate(sims, prices).medianClusters >= 245
    ensures Aggregate(sims, prices).medianDreamMatters >= 1
  {
    var r := Aggregate(sims, prices);
    FinishedCounts(sims);
    MemberAtLeast(r.medianClusters, ClusterCounts(sims), 245);
    MemberAtLeast(r.medianDreamMatters, DreamMatterCounts(sims), 1);
  }

  /** When every trial is finished and well spent, the report shows at least
      245 clusters and one dream matter, both on average and at the median. */
  lemma FinishedTrialsReport(sims: seq<UmbralCreation>, prices: Cli.CostTable)
    requires |sims| >= 1
    requires forall i :: 0 <= i < |sims| ==> IsDone(sims[i]) && WellSpent(sims[i])
    ensures Aggregate(sims, prices).avgClusters >= 245
    ensures Aggregate(sims, prices).avgDreamMatters >= 1
    ensures Aggregate(sims, prices).medianClusters >= 245
    ensures Aggregate(sims, prices).medianDreamMatters >= 1
  {
    FinishedAverages(sims, prices);
    FinishedMedians(sims, prices);
  }

  /** Trials run by `perform` from `new()` until done report at least the
      cheapest finished trial, on average and at the median. */
  lemma SimulatedTrialsReport(draws: seq<seq<int>>, sims: seq<UmbralCreation>, prices: Cli.CostTable)
    requires |sims| >= 1 && |draws| == |sims|
    requires forall i :: 0 <= i < |sims| ==>
      ValidDraws(New(), draws[i]) && sims[i] == Run(New(), draws[i]) && IsDone(sims[i])
    ensures Aggregate(sims, prices).avgClusters >= 245
    ensures Aggregate(sims, prices).avgDreamMatters >= 1
    ensures Aggregate(sims, prices).medianClusters >= 245
    ensures Aggregate(sims, prices).medianDreamMatters >= 1
  {
    NewIsWellSpent();
    forall i | 0 <= i < |sims|
      ensures IsDone(sims[i]) && WellSpent(sims[i])
    {
      RunMonotone(New(), draws[i]);
    }
    FinishedTrialsReport(sims, prices);
  }

  /** `main`: an argument error is printed and ends the process with status 1;
      otherwise the summary of the finished trials is printed. The trials are a
      parameter here, whatever `simulate` returned. */
  function Main(args: seq<string>, sims: seq<UmbralCreation>): (o: Outcome)
    requires |sims| >= 1
    ensures o.Exited? <==> Cli.CostTableFrom(args).Failure?
    ensures o.Exited? ==> o.code == 1 && o.message == Cli.CostTableFrom(args).error
    ensures o.Printed? ==> o.summary == Aggregate(sims, Cli.CostTableFrom(args).value)
  {
    match Cli.CostTableFrom(args)
    case Success(prices) => Printed(Aggregate(sims, prices))
    case Failure(err) => Exited(1, err)
  }
}

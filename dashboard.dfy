/** `generateDashboardSummary`: the registry's bots counted by health band
    and their rounded mean score. */
module Dashboard {
  import opened HealthScoring
  import opened Registry

  datatype Summary = Summary(
    totalBots: nat,
    healthyBots: nat,
    degradedBots: nat,
    criticalBots: nat,
    averageHealth: int,
    lastUpdate: int)

  function CountHealthy(bots: seq<BotRecord>): nat
  {
    if bots == [] then 0 else (if bots[0].healthScore > 70 then 1 else 0) + CountHealthy(bots[1..])
  }

  function CountDegraded(bots: seq<BotRecord>): nat
  {
    if bots == [] then 0
    else (if bots[0].healthScore > 30 && bots[0].healthScore <= 70 then 1 else 0) + CountDegraded(bots[1..])
  }

  function CountCritical(bots: seq<BotRecord>): nat
  {
    if bots == [] then 0 else (if bots[0].healthScore <= 30 then 1 else 0) + CountCritical(bots[1..])
  }

  function SumScores(bots: seq<BotRecord>): int
  {
    if bots == [] then 0 else bots[0].healthScore + SumScores(bots[1..])
  }

  /** `Math.round(sum / n)`: the integer nearest to the mean, halves
      rounded up. */
  function RoundedMean(sum: int, n: nat): (r: int)
    ensures n == 0 ==> r == 0
    ensures n > 0 ==> 2 * n * r <= 2 * sum + n < 2 * n * r + 2 * n
  {
    if n == 0 then 0 else (2 * sum + n) / (2 * n)
  }

  /** The summary of the registry's entries (in any order) at time `now`. */
  function DashboardSummary(bots: seq<BotRecord>, now: int): Summary
  {
    Summary(|bots|, CountHealthy(bots), CountDegraded(bots), CountCritical(bots),
            RoundedMean(SumScores(bots), |bots|), now)
  }

  /** The three bands are the bands of `Classify`: every bot lands in
      exactly one of them, the one its score classifies it into. */
  lemma {:induction false} BandsPartition(bots: seq<BotRecord>)
    ensures CountHealthy(bots) + CountDegraded(bots) + CountCritical(bots) == |bots|
  {
    if bots != [] {
      BandsPartition(bots[1..]);
    }
  }

  /** A single bot is counted in the band named by `Classify` of its score. */
  lemma BandOfOne(b: BotRecord)
    ensures CountHealthy([b]) == (if Classify(b.healthScore) == Healthy then 1 else 0)
    ensures CountDegraded([b]) == (if Classify(b.healthScore) == Degraded then 1 else 0)
    ensures CountCritical([b]) == (if Classify(b.healthScore) == Critical then 1 else 0)
  {
    assert [b][1..] == [];
  }

  lemma {:induction false} SumBounds(bots: seq<BotRecord>)
    requires forall k :: 0 <= k < |bots| ==> 0 <= bots[k].healthScore <= 100
    ensures 0 <= SumScores(bots) <= 100 * |bots|
  {
    if bots != [] {
      SumBounds(bots[1..]);
    }
  }

  lemma MeanInRange(sum: int, n: nat)
    requires n > 0 && 0 <= sum <= 100 * n
    ensures 0 <= RoundedMean(sum, n) <= 100
  {
    var r := RoundedMean(sum, n);
    var d := 2 * n;
    if r < 0 {
      MulNonPositive(d, r + 1);
      assert false;
    }
    if r > 100 {
      MulNonPositive(d, 101 - r);
      assert false;
    }
  }

  lemma MulNonPositive(d: int, x: int)
    requires d > 0 && x <= 0
    ensures d * x <= 0
  {
  }

  /** The summary's totals add up, an empty registry averages 0, and with
      every score between 0 and 100 so is the average. */
  lemma SummarySpec(bots: seq<BotRecord>, now: int)
    ensures var s := DashboardSummary(bots, now);
      && s.healthyBots + s.degradedBots + s.criticalBots == s.totalBots
      && (bots == [] ==> s.averageHealth == 0)
      && ((forall k :: 0 <= k < |bots| ==> 0 <= bots[k].healthScore <= 100) ==> 0 <= s.averageHealth <= 100)
  {
    BandsPartition(bots);
    if bots != [] && forall k :: 0 <= k < |bots| ==> 0 <= bots[k].healthScore <= 100 {
      SumBounds(bots);
      MeanInRange(SumScores(bots), |bots|);
    }
  }

  /** The counts and the sum of a concatenation are the sums of the parts. */
  lemma {:induction false} CountsAppend(a: seq<BotRecord>, b: seq<BotRecord>)
    ensures CountHealthy(a + b) == CountHealthy(a) + CountHealthy(b)
    ensures CountDegraded(a + b) == CountDegraded(a) + CountDegraded(b)
    ensures CountCritical(a + b) == CountCritical(a) + CountCritical(b)
    ensures SumScores(a + b) == SumScores(a) + SumScores(b)
  {
    if a == [] {
      assert a + b == b;
    } else {
      assert (a + b)[1..] == a[1..] + b;
      CountsAppend(a[1..], b);
    }
  }

  /** The counts are independent of the order of the registry's entries. */
  lemma {:induction false} CountsSwap(a: seq<BotRecord>, x: BotRecord, y: BotRecord, b: seq<BotRecord>, now: int)
    ensures DashboardSummary(a + [x, y] + b, now) == DashboardSummary(a + [y, x] + b, now)
  {
    CountsAppend(a + [x, y], b);
    CountsAppend(a + [y, x], b);
    CountsAppend(a, [x, y]);
    CountsAppend(a, [y, x]);
    assert [x, y][1..] == [y];
    assert [y, x][1..] == [x];
  }
}

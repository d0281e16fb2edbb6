/** Health scoring of one bot and the per-bot health history kept by the
    orchestrator: the score arithmetic of `checkBotHealth`, the three status
    bands, the 24-hour history window and the derived run of failures. */
module HealthScoring {
  import opened Common

  /** What one `makeHttpRequest` call gave back: a response with its status
      code, or a rejection (connection error or the request timeout). */
  datatype HttpOutcome = Response(statusCode: int) | Thrown(message: string)

  /** The observable outcome of one probe of a bot: the health endpoint
      request, the mesh endpoint request (only sent when the first one did
      not throw) and the milliseconds elapsed from the start of the probe to
      the end of the mesh request. */
  datatype ProbeRun = ProbeRun(primary: HttpOutcome, mesh: HttpOutcome, elapsedMs: nat)

  /** Every status a registry entry or a health sample can carry. */
  datatype BotStatus = Online | Unknown | Healthy | Degraded | Critical | Error

  /** One entry of a bot's health history (the object `checkBotHealth`
      returns, without its per-probe metrics). The sample written when the
      monitoring pass itself throws has no timestamp. */
  datatype HealthSample = HealthSample(score: int, status: BotStatus, timestamp: Option<int>)

  const PrimaryPenalty: int := 30
  const MeshPenalty: int := 20
  const HighLatencyMs: int := 10000
  const HighLatencyPenalty: int := 20
  const ModerateLatencyMs: int := 5000
  const ModerateLatencyPenalty: int := 10

  /** Retention window of the health history: 24 hours. */
  const HistoryWindowMs: int := 24 * 60 * 60 * 1000

  /** The healthy/degraded boundary used for the failure run. */
  const FailureScore: int := 50

  /** Some request of the probe rejected, so the catch block ran. */
  predicate ProbeThrew(run: ProbeRun)
  {
    run.primary.Thrown? || run.mesh.Thrown?
  }

  function LatencyPenalty(elapsedMs: nat): (p: int)
    ensures 0 <= p <= HighLatencyPenalty
  {
    if elapsedMs > HighLatencyMs then HighLatencyPenalty
    else if elapsedMs > ModerateLatencyMs then ModerateLatencyPenalty
    else 0
  }

  /** Reference definition of the health score: 100 less a fixed penalty
      per failed check and a two-tier latency penalty, or 0 when a request
      threw. */
  function ExpectedScore(run: ProbeRun): int
  {
    if ProbeThrew(run) then 0
    else
      100
      - (if run.primary.statusCode != 200 then PrimaryPenalty else 0)
      - (if run.mesh.statusCode != 200 then MeshPenalty else 0)
      - LatencyPenalty(run.elapsedMs)
  }

  /** The status bands of a score: above 70 healthy, above 30 degraded,
      otherwise critical. */
  function Classify(score: int): (s: BotStatus)
    ensures s == Healthy || s == Degraded || s == Critical
    ensures s == Healthy <==> score > 70
    ensures s == Degraded <==> 30 < score <= 70
    ensures s == Critical <==> score <= 30
  {
    if score > 70 then Healthy else if score > 30 then Degraded else Critical
  }

  /** The sample a probe yields at time `now`. */
  function ProbeSample(run: ProbeRun, now: int): HealthSample
  {
    HealthSample(ExpectedScore(run), Classify(ExpectedScore(run)), Some(now))
  }

  /** `checkBotHealth`: starts from 100 and lowers the score check by
      check; a thrown request forces it to 0. */
  method CheckBotHealth(run: ProbeRun, now: int) returns (r: HealthSample)
    ensures r.score == ExpectedScore(run)
    ensures ProbeThrew(run) ==> r.score == 0 && r.status == Critical
    ensures !ProbeThrew(run) ==> 30 <= r.score <= 100
    ensures 0 <= r.score <= 100
    ensures r.status == Classify(r.score)
    ensures r.timestamp == Some(now)
    ensures r == ProbeSample(run, now)
  {
    var healthScore := 100;
    var threw := false;
    if run.primary.Thrown? {
      threw := true;
    } else {
      if run.primary.statusCode != 200 {
        healthScore := healthScore - PrimaryPenalty;
      }
      if run.mesh.Thrown? {
        threw := true;
      } else {
        if run.mesh.statusCode != 200 {
          healthScore := healthScore - MeshPenalty;
        }
        if run.elapsedMs > HighLatencyMs {
          healthScore := healthScore - HighLatencyPenalty;
        } else if run.elapsedMs > ModerateLatencyMs {
          healthScore := healthScore - ModerateLatencyPenalty;
        }
      }
    }
    if threw {
      healthScore := 0;
    }
    var score := if healthScore < 0 then 0 else healthScore;
    r := HealthSample(score, Classify(healthScore), Some(now));
  }

  /** The end-to-end scenarios: all checks pass at 1.2 s, the health
      endpoint fails at 1.2 s, both checks fail at 12 s. */
  lemma ScenarioScores()
    ensures ExpectedScore(ProbeRun(Response(200), Response(200), 1200)) == 100
    ensures Classify(100) == Healthy
    ensures ExpectedScore(ProbeRun(Response(500), Response(200), 1200)) == 70
    ensures Classify(70) == Degraded
    ensures ExpectedScore(ProbeRun(Response(500), Response(503), 12000)) == 30
    ensures Classify(30) == Critical
  {
  }

  // ----- history window -----

  /** A history entry survives pruning when its timestamp parses and lies
      strictly after the cutoff (a missing timestamp compares as NaN). */
  predicate Retained(h: HealthSample, cutoff: int)
  {
    h.timestamp.Some? && h.timestamp.value > cutoff
  }

  /** `Array.prototype.filter` with the retention test. */
  function Prune(hist: seq<HealthSample>, cutoff: int): (r: seq<HealthSample>)
    ensures |r| <= |hist|
  {
    if hist == [] then []
    else (if Retained(hist[0], cutoff) then [hist[0]] else []) + Prune(hist[1..], cutoff)
  }

  /** Pruning keeps exactly the retained samples. */
  lemma {:induction false} PruneSpec(hist: seq<HealthSample>, cutoff: int)
    ensures var r := Prune(hist, cutoff);
      && (forall k :: 0 <= k < |r| ==> Retained(r[k], cutoff))
      && (forall h :: h in r <==> h in hist && Retained(h, cutoff))
  {
    if hist != [] {
      PruneSpec(hist[1..], cutoff);
      assert hist == [hist[0]] + hist[1..];
    }
  }

  /** Pruning works element by element, so it keeps the original order:
      pruning a concatenation is the concatenation of the pruned parts. */
  lemma {:induction false} PruneAppend(a: seq<HealthSample>, b: seq<HealthSample>, cutoff: int)
    ensures Prune(a + b, cutoff) == Prune(a, cutoff) + Prune(b, cutoff)
  {
    if a == [] {
      assert a + b == b;
    } else {
      var head := if Retained(a[0], cutoff) then [a[0]] else [];
      assert (a + b)[0] == a[0];
      assert (a + b)[1..] == a[1..] + b;
      assert Prune(a + b, cutoff) == head + Prune(a[1..] + b, cutoff);
      PruneAppend(a[1..], b, cutoff);
      assert Prune(a, cutoff) == head + Prune(a[1..], cutoff);
    }
  }

  /** A history whose entries are all recent is left as it is. */
  lemma {:induction false} PruneKeepsRecent(hist: seq<HealthSample>, cutoff: int)
    requires forall k :: 0 <= k < |hist| ==> Retained(hist[k], cutoff)
    ensures Prune(hist, cutoff) == hist
  {
    if hist != [] {
      PruneKeepsRecent(hist[1..], cutoff);
    }
  }

  /** The history after `updateBotHealthStatus` at time `now`. */
  function UpdatedHistory(hist: seq<HealthSample>, sample: HealthSample, now: int): seq<HealthSample>
  {
    Prune(hist, now - HistoryWindowMs) + [sample]
  }

  /** After an update the history ends with the new sample, and before it
      holds exactly the earlier samples of the last 24 hours. */
  lemma UpdatedHistorySpec(hist: seq<HealthSample>, sample: HealthSample, now: int)
    ensures var r := UpdatedHistory(hist, sample, now);
      && |r| >= 1 && r[|r| - 1] == sample
      && (forall k :: 0 <= k < |r| - 1 ==> Retained(r[k], now - HistoryWindowMs))
      && (forall h :: h in r[..|r| - 1] <==> h in hist && Retained(h, now - HistoryWindowMs))
  {
    var r := UpdatedHistory(hist, sample, now);
    PruneSpec(hist, now - HistoryWindowMs);
    assert r[..|r| - 1] == Prune(hist, now - HistoryWindowMs);
  }

  // ----- failure run -----

  /** Every sample of `s` from index `lo` on scores 50 or less. */
  predicate FailingFrom(s: seq<HealthSample>, lo: int)
  {
    forall j :: lo <= j < |s| && 0 <= j ==> s[j].score <= FailureScore
  }

  /** `slice(-5)`: the five newest samples (or all of them). */
  function LastFive(hist: seq<HealthSample>): (r: seq<HealthSample>)
    ensures |r| == if |hist| < 5 then |hist| else 5
  {
    if |hist| <= 5 then hist else hist[|hist| - 5..]
  }

  /** `reverse().findIndex(h => h.score > 50)`: the position, counted from
      the newest sample, of the newest sample scoring above 50, or -1. */
  function NewestHealthyIndex(recent: seq<HealthSample>): (i: int)
    ensures -1 <= i < |recent|
  {
    if |recent| == 0 then -1
    else if recent[|recent| - 1].score > FailureScore then 0
    else
      var j := NewestHealthyIndex(recent[..|recent| - 1]);
      if j == -1 then -1 else j + 1
  }

  /** The search stops at the newest sample above 50, after only failing
      samples, and reports -1 when every sample fails. */
  lemma {:induction false} NewestHealthyIndexSpec(recent: seq<HealthSample>)
    ensures var i := NewestHealthyIndex(recent);
      && (i >= 0 ==> recent[|recent| - 1 - i].score > FailureScore)
      && (i >= 0 ==> FailingFrom(recent, |recent| - i))
      && (i == -1 ==> FailingFrom(recent, 0))
  {
    if |recent| > 0 && recent[|recent| - 1].score <= FailureScore {
      var front := recent[..|recent| - 1];
      NewestHealthyIndexSpec(front);
      assert forall k :: 0 <= k < |front| ==> front[k] == recent[k];
    }
  }

  /** `consecutiveFailures`: how many of the newest samples, at most five,
      score 50 or less before the first one above 50. */
  function ConsecutiveFailures(hist: seq<HealthSample>): (n: nat)
    ensures n <= 5 && n <= |hist|
  {
    var recent := LastFive(hist);
    var i := NewestHealthyIndex(recent);
    if i == -1 then |recent| else i
  }

  /** The `n` newest samples, at most five, all score 50 or less, and the
      sample before them, if the window reaches it, scores above 50. */
  lemma ConsecutiveFailuresSpec(hist: seq<HealthSample>)
    ensures var n := ConsecutiveFailures(hist);
      && FailingFrom(hist, |hist| - n)
      && (n < |hist| && n < 5 ==> hist[|hist| - 1 - n].score > FailureScore)
  {
    var recent := LastFive(hist);
    var i := NewestHealthyIndex(recent);
    var n := ConsecutiveFailures(hist);
    var off := |hist| - |recent|;
    var lo := if i == -1 then 0 else |recent| - i;
    NewestHealthyIndexSpec(recent);
    assert FailingFrom(recent, lo);
    assert n == |recent| - lo;
    forall j | |hist| - n <= j < |hist| && 0 <= j
      ensures hist[j].score <= FailureScore
    {
      FailingAt(recent, lo, j - off);
    }
    if n < |hist| && n < 5 {
      assert i >= 0;
      assert hist[|hist| - 1 - n] == recent[|recent| - 1 - i];
    }
  }

  lemma FailingAt(s: seq<HealthSample>, lo: int, j: int)
    requires FailingFrom(s, lo) && lo <= j < |s| && 0 <= j
    ensures s[j].score <= FailureScore
  {
  }

  /** The properties above pin the value down. */
  lemma ConsecutiveFailuresUnique(hist: seq<HealthSample>, n: nat)
    requires n <= 5 && n <= |hist|
    requires FailingFrom(hist, |hist| - n)
    requires n < |hist| && n < 5 ==> hist[|hist| - 1 - n].score > FailureScore
    ensures ConsecutiveFailures(hist) == n
  {
    ConsecutiveFailuresSpec(hist);
  }

  /** The run grows by one with each failing sample, capped at five, and
      drops to zero on a sample above 50. */
  lemma ConsecutiveFailuresStep(hist: seq<HealthSample>, s: HealthSample)
    ensures s.score > FailureScore ==> ConsecutiveFailures(hist + [s]) == 0
    ensures s.score <= FailureScore ==>
      ConsecutiveFailures(hist + [s]) == if ConsecutiveFailures(hist) == 5 then 5 else ConsecutiveFailures(hist) + 1
  {
    var h := hist + [s];
    if s.score > FailureScore {
      ConsecutiveFailuresUnique(h, 0);
    } else {
      var n := ConsecutiveFailures(hist);
      var c := if n == 5 then 5 else n + 1;
      ConsecutiveFailuresSpec(hist);
      assert forall j :: 0 <= j < |hist| ==> h[j] == hist[j];
      ConsecutiveFailuresUnique(h, c);
    }
  }
}

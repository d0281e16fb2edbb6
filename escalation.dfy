/** The escalation rules of `performHealthMonitoring`: what one pass does to
    one registered bot, as the loop body is written and as it is evidently
    meant, and what a whole pass over the registry does. */
module Escalation {
  import opened Common
  import opened HealthScoring
  import opened Registry
  import opened Recovery
  import opened Notices

  /** A score below this sends a health alert. */
  const AlertBelow: int := 50
  /** A score below this, after enough failures, starts an auto-recovery. */
  const RecoverBelow: int := 20
  const RecoverAfterFailures: int := 3
  const AutoRestart: string := "auto-restart"

  /** The sample the catch block of the loop records: score 0, status
      error, no timestamp. */
  const ErrorSample: HealthSample := HealthSample(0, Error, None)

  /** The auto-recovery guard over the failure count it reads; an absent
      count (`undefined >= 3`) compares false. */
  predicate RecoveryGuard(score: int, failures: Option<nat>)
  {
    score < RecoverBelow && failures.Some? && failures.value >= RecoverAfterFailures
  }

  /** What one pass does to one bot: its new history, its new registry
      entry and the alerts sent for it. */
  datatype BotPass = BotPass(history: seq<HealthSample>, record: BotRecord, notices: seq<Notice>)

  /** The loop body as written (orchestrator.js:412-430). The alert call
      names a function that is not defined anywhere, so for a score below 50
      it throws and the catch block records `ErrorSample`; the recovery
      guard reads a failure count the health result never carries. */
  function PassAsWritten(rec: BotRecord, hist: seq<HealthSample>, probe: ProbeRun, now: int): BotPass
  {
    var sample := ProbeSample(probe, now);
    var h := UpdatedHistory(hist, sample, now);
    var r := WithHealth(rec, sample, h);
    if sample.score < AlertBelow then
      var h' := UpdatedHistory(h, ErrorSample, now);
      BotPass(h', WithHealth(r, ErrorSample, h'), [])
    else if RecoveryGuard(sample.score, None) then
      BotPass(h, r, [RecoveryNotice(rec.id, AutoRestart, 0)])
    else
      BotPass(h, r, [])
  }

  /** The alerts a pass sends for a bot whose new score is `score` and whose
      registry entry then reads `failures`: a health alert below 50, then an
      auto-recovery (whose re-probe scores `reprobeScore`) when the guard
      holds. */
  function Escalate(botId: string, score: int, failures: Option<nat>, reprobeScore: int): seq<Notice>
  {
    (if score < AlertBelow then [HealthDegradedAlert(botId, score)] else [])
    + (if RecoveryGuard(score, failures) then [RecoveryNotice(botId, AutoRestart, reprobeScore)] else [])
  }

  /** The loop body as evidently meant: a score below 50 sends a health
      alert, and the guard reads the failure run just stored in the
      registry. The recovery re-probes the bot with `reprobe`. */
  function PassCorrected(botId: string, rec: BotRecord, hist: seq<HealthSample>, probe: ProbeRun, reprobe: ProbeRun, now: int): BotPass
  {
    var sample := ProbeSample(probe, now);
    var h := UpdatedHistory(hist, sample, now);
    var r := WithHealth(rec, sample, h);
    BotPass(h, r, Escalate(botId, sample.score, r.consecutiveFailures, ExpectedScore(reprobe)))
  }

  /** A history that already holds the newest sample keeps it when pruned
      again at the same time. */
  lemma PruneAgain(hist: seq<HealthSample>, sample: HealthSample, now: int)
    requires sample.timestamp == Some(now)
    ensures Prune(UpdatedHistory(hist, sample, now), now - HistoryWindowMs) == UpdatedHistory(hist, sample, now)
  {
    var cutoff := now - HistoryWindowMs;
    var p := Prune(hist, cutoff);
    PruneAppend(p, [sample], cutoff);
    PruneSpec(hist, cutoff);
    PruneKeepsRecent(p, cutoff);
    PruneKeepsRecent([sample], cutoff);
  }

  /** As written, a pass sends no alert at all, and a score below 50 leaves
      the registry entry at score 0, status error, without a check time, with
      the probe's sample and the error sample as the two newest samples. */
  lemma AsWrittenDegradedPass(rec: BotRecord, hist: seq<HealthSample>, probe: ProbeRun, now: int)
    ensures var p := PassAsWritten(rec, hist, probe, now);
      && p.notices == []
      && (ExpectedScore(probe) < AlertBelow ==>
            && p.record.healthScore == 0 && p.record.status == Error && p.record.lastHealthCheck.None?
            && |p.history| >= 2
            && p.history[|p.history| - 2] == ProbeSample(probe, now)
            && p.history[|p.history| - 1] == ErrorSample)
      && (ExpectedScore(probe) >= AlertBelow ==>
            p.record.status == Classify(ExpectedScore(probe)) && p.record.lastHealthCheck == Some(now))
  {
    var sample := ProbeSample(probe, now);
    if sample.score < AlertBelow {
      var h := UpdatedHistory(hist, sample, now);
      PruneAgain(hist, sample, now);
      assert UpdatedHistory(h, ErrorSample, now) == h + [ErrorSample];
    }
  }

  /** As written, the recovery guard never holds, whatever the score. */
  lemma AsWrittenGuardNeverHolds(score: int)
    ensures !RecoveryGuard(score, None)
  {
  }

  /** A pass alerts exactly below 50 and recovers exactly below 20 with at
      least three failures in a row, sending at most these two alerts, the
      health alert first. */
  lemma EscalateSpec(botId: string, score: int, failures: nat, reprobeScore: int)
    ensures var n := Escalate(botId, score, Some(failures), reprobeScore);
      var recovery := RecoveryNotice(botId, AutoRestart, reprobeScore);
      && |n| <= 2
      && (HealthDegradedAlert(botId, score) in n <==> score < AlertBelow)
      && (recovery in n <==> score < RecoverBelow && failures >= RecoverAfterFailures)
      && (|n| == 2 ==> n == [HealthDegradedAlert(botId, score), recovery])
  {
    var recovery := RecoveryNotice(botId, AutoRestart, reprobeScore);
    assert AutoRestart in KnownMethods;
    assert !recovery.HealthDegradedAlert?;
  }

  /** The recovery starts exactly when the new score is below 20 and the
      two newest samples kept from before also scored 50 or less. */
  lemma RecoveryAfterThreeFailures(botId: string, rec: BotRecord, hist: seq<HealthSample>, probe: ProbeRun, reprobe: ProbeRun, now: int)
    ensures var p := PassCorrected(botId, rec, hist, probe, reprobe, now);
      |p.notices| == 2 <==>
        ExpectedScore(probe) < RecoverBelow && ConsecutiveFailures(Prune(hist, now - HistoryWindowMs)) >= 2
  {
    var sample := ProbeSample(probe, now);
    ConsecutiveFailuresStep(Prune(hist, now - HistoryWindowMs), sample);
  }

  /** A probe that throws at once. */
  const DeadProbe: ProbeRun := ProbeRun(Thrown("Request timeout"), Thrown("Request timeout"), 0)

  /** A dead probe at `now` on a bot whose samples are all still recent at
      the time `later` appends a score-0 sample that is recent then too,
      grows the failure run by one (up to five) and alerts. */
  lemma DeadPass(botId: string, rec: BotRecord, hist: seq<HealthSample>, reprobe: ProbeRun, now: int, later: int)
    requires now <= later < now + HistoryWindowMs
    requires forall k :: 0 <= k < |hist| ==> Retained(hist[k], later - HistoryWindowMs)
    ensures var p := PassCorrected(botId, rec, hist, DeadProbe, reprobe, now);
      var n := ConsecutiveFailures(hist);
      && p.history == hist + [ProbeSample(DeadProbe, now)]
      && (forall k :: 0 <= k < |p.history| ==> Retained(p.history[k], later - HistoryWindowMs))
      && ConsecutiveFailures(p.history) == (if n == 5 then 5 else n + 1)
      && p.notices == Escalate(botId, 0, Some(ConsecutiveFailures(p.history)), ExpectedScore(reprobe))
  {
    var sample := ProbeSample(DeadProbe, now);
    var h := UpdatedHistory(hist, sample, now);
    RecentUpdate(hist, sample, now, later);
    ConsecutiveFailuresStep(hist, sample);
    var r := WithHealth(rec, sample, h);
    assert r.consecutiveFailures == Some(ConsecutiveFailures(h));
  }

  /** A new sample at `now` on a history that is recent at `later` is
      appended without pruning anything, and all of it is recent at
      `later`. */
  lemma RecentUpdate(hist: seq<HealthSample>, sample: HealthSample, now: int, later: int)
    requires now <= later < now + HistoryWindowMs && sample.timestamp == Some(now)
    requires forall k :: 0 <= k < |hist| ==> Retained(hist[k], later - HistoryWindowMs)
    ensures UpdatedHistory(hist, sample, now) == hist + [sample]
    ensures forall k :: 0 <= k < |hist| + 1 ==> Retained((hist + [sample])[k], later - HistoryWindowMs)
  {
    RetainedEarlier(hist, later - HistoryWindowMs, now - HistoryWindowMs);
    PruneKeepsRecent(hist, now - HistoryWindowMs);
  }

  /** Samples recent at one cutoff are recent at any earlier one. */
  lemma RetainedEarlier(hist: seq<HealthSample>, cutoff: int, earlier: int)
    requires earlier <= cutoff
    requires forall k :: 0 <= k < |hist| ==> Retained(hist[k], cutoff)
    ensures forall k :: 0 <= k < |hist| ==> Retained(hist[k], earlier)
  {
  }

  /** Three dead probes a minute apart on a bot with no history: as written
      no alert is ever sent. */
  lemma ThreeDeadProbesAsWritten(rec: BotRecord, now: int)
    ensures var a1 := PassAsWritten(rec, [], DeadProbe, now);
      var a2 := PassAsWritten(a1.record, a1.history, DeadProbe, now + 60000);
      var a3 := PassAsWritten(a2.record, a2.history, DeadProbe, now + 120000);
      a1.notices == [] && a2.notices == [] && a3.notices == []
  {
    var a1 := PassAsWritten(rec, [], DeadProbe, now);
    var a2 := PassAsWritten(a1.record, a1.history, DeadProbe, now + 60000);
    AsWrittenDegradedPass(rec, [], DeadProbe, now);
    AsWrittenDegradedPass(a1.record, a1.history, DeadProbe, now + 60000);
    AsWrittenDegradedPass(a2.record, a2.history, DeadProbe, now + 120000);
  }

  /** The same three dead probes as meant: each sends a health alert and
      the third also starts the auto-recovery. */
  lemma ThreeDeadProbesCorrected(botId: string, rec: BotRecord, reprobe: ProbeRun, now: int)
    ensures var c1 := PassCorrected(botId, rec, [], DeadProbe, reprobe, now);
      var c2 := PassCorrected(botId, c1.record, c1.history, DeadProbe, reprobe, now + 60000);
      var c3 := PassCorrected(botId, c2.record, c2.history, DeadProbe, reprobe, now + 120000);
      && c1.notices == [HealthDegradedAlert(botId, 0)]
      && c2.notices == [HealthDegradedAlert(botId, 0)]
      && c3.notices == [HealthDegradedAlert(botId, 0), RecoveryNotice(botId, AutoRestart, ExpectedScore(reprobe))]
  {
    var c1 := PassCorrected(botId, rec, [], DeadProbe, reprobe, now);
    var c2 := PassCorrected(botId, c1.record, c1.history, DeadProbe, reprobe, now + 60000);
    var last := now + 120000;
    assert ConsecutiveFailures([]) == 0;
    DeadPass(botId, rec, [], reprobe, now, last);
    DeadPass(botId, c1.record, c1.history, reprobe, now + 60000, last);
    DeadPassAfterTwo(botId, c2.record, c2.history, reprobe, last);
  }

  lemma DeadPassAfterTwo(botId: string, rec: BotRecord, hist: seq<HealthSample>, reprobe: ProbeRun, now: int)
    requires ConsecutiveFailures(hist) == 2
    requires forall k :: 0 <= k < |hist| ==> Retained(hist[k], now - HistoryWindowMs)
    ensures PassCorrected(botId, rec, hist, DeadProbe, reprobe, now).notices
      == [HealthDegradedAlert(botId, 0), RecoveryNotice(botId, AutoRestart, ExpectedScore(reprobe))]
  {
    DeadPass(botId, rec, hist, reprobe, now, now);
    EscalateBoth(botId, 0, 3, ExpectedScore(reprobe));
  }

  lemma EscalateBoth(botId: string, score: int, failures: nat, reprobeScore: int)
    requires score < RecoverBelow && failures >= RecoverAfterFailures
    ensures Escalate(botId, score, Some(failures), reprobeScore)
      == [HealthDegradedAlert(botId, score), RecoveryNotice(botId, AutoRestart, reprobeScore)]
  {
  }

  // ----- a whole pass over the registry -----

  /** The registry, the health histories and the alerts sent so far. */
  datatype FleetView = FleetView(
    registry: map<string, BotRecord>,
    history: map<string, seq<HealthSample>>,
    notices: seq<Notice>)

  /** A bot's history; a bot without one has the empty history. */
  function HistoryOf(hh: map<string, seq<HealthSample>>, botId: string): seq<HealthSample>
  {
    if botId in hh then hh[botId] else []
  }

  /** What one visit does to one bot, from its id, its entry, its history,
      its probe, its re-probe and the time of the pass; `PassCorrected` is
      the rule of the monitoring loop. */
  type PassRule = (string, BotRecord, seq<HealthSample>, ProbeRun, ProbeRun, int) -> BotPass

  /** One iteration of the monitoring loop on the current view. */
  function MonitorStep(v: FleetView, botId: string, probe: ProbeRun, reprobe: ProbeRun, now: int, pass: PassRule): (w: FleetView)
    requires botId in v.registry
    ensures w.registry.Keys == v.registry.Keys
  {
    var p := pass(botId, v.registry[botId], HistoryOf(v.history, botId), probe, reprobe, now);
    FleetView(v.registry[botId := p.record], v.history[botId := p.history], v.notices + p.notices)
  }

  /** The loop over the bots of `order`, the i-th probed with `probes[i]`
      and, if recovered, re-probed with `reprobes[i]`. */
  function Monitored(v: FleetView, order: seq<string>, probes: seq<ProbeRun>, reprobes: seq<ProbeRun>, now: int, pass: PassRule): (w: FleetView)
    requires |probes| == |order| && |reprobes| == |order|
    requires forall i :: 0 <= i < |order| ==> order[i] in v.registry
    ensures w.registry.Keys == v.registry.Keys
    decreases |order|
  {
    if order == [] then v
    else
      var n := |order| - 1;
      MonitorStep(Monitored(v, order[..n], probes[..n], reprobes[..n], now, pass), order[n], probes[n], reprobes[n], now, pass)
  }

  /** The pass of the i-th bot, computed from the view before the loop. */
  function PassOf(v: FleetView, order: seq<string>, probes: seq<ProbeRun>, reprobes: seq<ProbeRun>, now: int, pass: PassRule, i: int): BotPass
    requires |probes| == |order| && |reprobes| == |order|
    requires 0 <= i < |order| && order[i] in v.registry
  {
    pass(order[i], v.registry[order[i]], HistoryOf(v.history, order[i]), probes[i], reprobes[i], now)
  }

  /** The alerts of every bot of `order` in loop order, each computed from
      the view before the loop. */
  function AllNotices(v: FleetView, order: seq<string>, probes: seq<ProbeRun>, reprobes: seq<ProbeRun>, now: int, pass: PassRule): seq<Notice>
    requires |probes| == |order| && |reprobes| == |order|
    requires forall i :: 0 <= i < |order| ==> order[i] in v.registry
    decreases |order|
  {
    if order == [] then []
    else
      var n := |order| - 1;
      AllNotices(v, order[..n], probes[..n], reprobes[..n], now, pass) + PassOf(v, order, probes, reprobes, now, pass, n).notices
  }

  /** The loop leaves the entries and histories of bots it does not visit
      alone. */
  lemma {:induction false} MonitoredUntouched(v: FleetView, order: seq<string>, probes: seq<ProbeRun>, reprobes: seq<ProbeRun>, now: int, pass: PassRule, id: string)
    requires |probes| == |order| && |reprobes| == |order|
    requires forall i :: 0 <= i < |order| ==> order[i] in v.registry
    requires id !in order
    ensures var w := Monitored(v, order, probes, reprobes, now, pass);
      && (id in v.registry ==> w.registry[id] == v.registry[id])
      && HistoryOf(w.history, id) == HistoryOf(v.history, id)
    decreases |order|
  {
    if order != [] {
      var n := |order| - 1;
      assert id !in order[..n];
      MonitoredUntouched(v, order[..n], probes[..n], reprobes[..n], now, pass, id);
    }
  }

  /** Each bot is visited once, and a visit reads and writes only that
      bot's entry and history, so the loop leaves every visited bot as a
      single pass on the starting view would. */
  lemma {:induction false} MonitoredVisited(v: FleetView, order: seq<string>, probes: seq<ProbeRun>, reprobes: seq<ProbeRun>, now: int, pass: PassRule, i: int)
    requires |probes| == |order| && |reprobes| == |order|
    requires forall k :: 0 <= k < |order| ==> order[k] in v.registry
    requires forall k, j :: 0 <= k < j < |order| ==> order[k] != order[j]
    requires 0 <= i < |order|
    ensures var w := Monitored(v, order, probes, reprobes, now, pass);
      var p := PassOf(v, order, probes, reprobes, now, pass, i);
      w.registry[order[i]] == p.record && HistoryOf(w.history, order[i]) == p.history
    decreases |order|
  {
    var n := |order| - 1;
    var front, fp, fr := order[..n], probes[..n], reprobes[..n];
    if i < n {
      MonitoredVisited(v, front, fp, fr, now, pass, i);
      assert front[i] == order[i] && fp[i] == probes[i] && fr[i] == reprobes[i];
      assert order[i] != order[n];
    } else {
      LastNotInFront(order);
      MonitoredUntouched(v, front, fp, fr, now, pass, order[n]);
    }
  }

  /** The loop sends the alerts of the visited bots in loop order, each
      exactly as a single pass on the starting view would. */
  lemma {:induction false} MonitoredNotices(v: FleetView, order: seq<string>, probes: seq<ProbeRun>, reprobes: seq<ProbeRun>, now: int, pass: PassRule)
    requires |probes| == |order| && |reprobes| == |order|
    requires forall k :: 0 <= k < |order| ==> order[k] in v.registry
    requires forall k, j :: 0 <= k < j < |order| ==> order[k] != order[j]
    ensures Monitored(v, order, probes, reprobes, now, pass).notices == v.notices + AllNotices(v, order, probes, reprobes, now, pass)
    decreases |order|
  {
    if order != [] {
      var n := |order| - 1;
      var front, fp, fr := order[..n], probes[..n], reprobes[..n];
      MonitoredNotices(v, front, fp, fr, now, pass);
      LastNotInFront(order);
      MonitoredUntouched(v, front, fp, fr, now, pass, order[n]);
    }
  }

  /** A visit with the corrected rule records the probe's sample in the
      bot's history, copies it and the new failure run into its entry, and
      sends the alerts `Escalate` names. */
  lemma CorrectedStep(v: FleetView, botId: string, probe: ProbeRun, reprobe: ProbeRun, now: int)
    requires botId in v.registry
    ensures var s := ProbeSample(probe, now);
      var h := UpdatedHistory(HistoryOf(v.history, botId), s, now);
      var r := WithHealth(v.registry[botId], s, h);
      MonitorStep(v, botId, probe, reprobe, now, PassCorrected)
        == FleetView(v.registry[botId := r], v.history[botId := h],
                     v.notices + Escalate(botId, s.score, Some(ConsecutiveFailures(h)), ExpectedScore(reprobe)))
  {
  }

  /** The loop over one more bot is one more visit. */
  lemma MonitoredSnoc(v: FleetView, order: seq<string>, probes: seq<ProbeRun>, reprobes: seq<ProbeRun>, now: int, pass: PassRule, k: int)
    requires |probes| == |order| && |reprobes| == |order|
    requires forall i :: 0 <= i < |order| ==> order[i] in v.registry
    requires 0 <= k < |order|
    ensures Monitored(v, order[..k + 1], probes[..k + 1], reprobes[..k + 1], now, pass)
      == MonitorStep(Monitored(v, order[..k], probes[..k], reprobes[..k], now, pass), order[k], probes[k], reprobes[k], now, pass)
  {
    assert order[..k + 1][..k] == order[..k];
    assert probes[..k + 1][..k] == probes[..k];
    assert reprobes[..k + 1][..k] == reprobes[..k];
  }

  /** In a sequence without repetitions the last element does not occur
      before it. */
  lemma LastNotInFront(order: seq<string>)
    requires |order| > 0
    requires forall k, j :: 0 <= k < j < |order| ==> order[k] != order[j]
    ensures order[|order| - 1] !in order[..|order| - 1]
  {
    var n := |order| - 1;
    forall k | 0 <= k < n
      ensures order[..n][k] != order[n]
    {
      assert order[..n][k] == order[k];
    }
  }
}

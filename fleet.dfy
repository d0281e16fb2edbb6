/** The orchestrator's in-memory state and the operations that change it:
    the deploy endpoint and pipeline, the health update, the emergency
    recovery, the monitoring loop, the startup rebuild and the state load.
    Remote calls come in as parameters; alerts go to the `sent` log. */
module Fleet {
  import opened Common
  import opened HealthScoring
  import opened Deployments
  import opened Registry
  import opened Alerts
  import opened Notices
  import opened Recovery
  import opened Escalation

  /** The parts of the state file that a load can replace: a top-level key
      present in the file replaces the one in memory. */
  datatype StoredState = StoredState(
    deployments: Option<map<string, Deployment>>,
    healthHistory: Option<map<string, seq<HealthSample>>>,
    alerts: Option<seq<Alert>>)

  /** The deployments of `ids`, in that order. */
  function InOrder(deployments: map<string, Deployment>, ids: seq<string>): (ds: seq<Deployment>)
    requires forall i :: 0 <= i < |ids| ==> ids[i] in deployments
    ensures |ds| == |ids|
    ensures forall i :: 0 <= i < |ids| ==> ds[i] == deployments[ids[i]]
  {
    if ids == [] then [] else InOrder(deployments, ids[..|ids| - 1]) + [deployments[ids[|ids| - 1]]]
  }

  /** Over ids that list every stored deployment, the rebuild registers
      exactly the old entries and the bot name of every stored deployment
      that completed and has an address. */
  lemma RebuiltCoversStored(reg: map<string, BotRecord>, deployments: map<string, Deployment>, ids: seq<string>)
    requires forall i :: 0 <= i < |ids| ==> ids[i] in deployments
    requires forall id :: id in deployments ==> id in ids
    ensures forall name :: name in Rebuilt(reg, InOrder(deployments, ids)) <==>
      name in reg || exists id :: id in deployments && Qualifies(deployments[id]) && deployments[id].botName == name
  {
    var ds := InOrder(deployments, ids);
    RebuiltKeys(reg, ds);
    forall name
      ensures name in Rebuilt(reg, ds) <==>
        name in reg || exists id :: id in deployments && Qualifies(deployments[id]) && deployments[id].botName == name
    {
      if exists id :: id in deployments && Qualifies(deployments[id]) && deployments[id].botName == name {
        var id :| id in deployments && Qualifies(deployments[id]) && deployments[id].botName == name;
        var k :| 0 <= k < |ids| && ids[k] == id;
        assert ds[k] == deployments[id];
      }
      if exists k :: 0 <= k < |ds| && Qualifies(ds[k]) && ds[k].botName == name {
        var k :| 0 <= k < |ds| && Qualifies(ds[k]) && ds[k].botName == name;
        assert ids[k] in deployments && deployments[ids[k]] == ds[k];
      }
    }
  }

  class FleetState {
    /** `botRegistry`: the managed bots by id. */
    var registry: map<string, BotRecord>
    /** `orchestratorState.deployments`, by deployment id. */
    var deployments: map<string, Deployment>
    /** `orchestratorState.healthHistory`, by bot id. */
    var healthHistory: map<string, seq<HealthSample>>
    /** `orchestratorState.alerts`. */
    var alerts: seq<Alert>
    /** Every alert sent so far, oldest first. */
    var sent: seq<Notice>

    /** Every registry entry is stored under its own id and carries a
        failure run of at most five. */
    ghost predicate Valid()
      reads this
    {
      forall id :: id in registry ==> WellFormed(id, registry[id])
    }

    /** The state the process starts with. */
    constructor()
      ensures Valid()
      ensures registry == map[] && deployments == map[] && healthHistory == map[]
      ensures alerts == [] && sent == []
    {
      registry := map[];
      deployments := map[];
      healthHistory := map[];
      alerts := [];
      sent := [];
    }

    /** `POST /deploy`: a rejected request stores nothing; an accepted one
        stores a new record under `deploy_<now>_<botName>` and answers with
        that id. The pipeline itself is `DeployBot`. */
    method StartDeployment(req: DeployRequest, now: nat) returns (r: Result<string, DeployError>)
      modifies this`deployments
      ensures ValidateDeploy(req).Failure? ==>
        r == Failure(ValidateDeploy(req).error) && deployments == old(deployments)
      ensures ValidateDeploy(req).Success? ==>
        var v := ValidateDeploy(req).value;
        && r == Success(DeploymentId(now, v.botName))
        && deployments == old(deployments)[r.value := NewDeployment(v, now)]
    {
      var checked := ValidateDeploy(req);
      match checked
      case Failure(e) =>
        r := Failure(e);
      case Success(v) =>
        var id := DeploymentId(now, v.botName);
        deployments := deployments[id := NewDeployment(v, now)];
        r := Success(id);
    }

    /** `addDeploymentStep`: appends a step to a stored deployment, and does
        nothing for an unknown id. */
    method AddDeploymentStep(id: string, message: StepMessage, now: int)
      modifies this`deployments
      ensures id in old(deployments) ==>
        deployments == old(deployments)[id := old(deployments)[id].(steps := old(deployments)[id].steps + [DeployStep(now, message)])]
      ensures id !in old(deployments) ==> deployments == old(deployments)
    {
      if id in deployments {
        var d := deployments[id];
        deployments := deployments[id := d.(steps := d.steps + [DeployStep(now, message)])];
      }
    }

    /** `deployBotAsync`: runs the pipeline stages with the outcomes of
        `run`, logging each finished stage. On success the bot is registered
        online; on any failure the deployment records the error and the
        registry is left alone. Either way exactly one alert is sent.
        `path` is the sequence of statuses assigned. */
    method DeployBot(id: string, run: DeployRun, now: int) returns (ghost path: seq<DeployStatus>)
      requires id in deployments
      requires Valid()
      modifies this`deployments, this`registry, this`sent
      ensures Valid()
      ensures deployments == old(deployments)[id := AfterPipeline(old(deployments)[id], run, now)]
      ensures path == StatusPath(run)
      ensures FailureOf(run).None? ==>
        var d := old(deployments)[id];
        && registry == old(registry)[d.botName := OnlineRecord(d, run.provision.value, now)]
        && sent == old(sent) + [DeployedAlert(d.botName, d.botType, run.provision.value.publicIp)]
      ensures FailureOf(run).Some? ==>
        var d := old(deployments)[id];
        && registry == old(registry)
        && sent == old(sent) + [DeployFailedAlert(d.botName, FailureOf(run).value)]
    {
      var d0 := deployments[id];
      var d, failure;
      d, failure, path := RunStages(d0, run, now);
      if failure.None? {
        registry := registry[d0.botName := OnlineRecord(d0, run.provision.value, now)];
        sent := sent + [DeployedAlert(d0.botName, d0.botType, run.provision.value.publicIp)];
      } else {
        sent := sent + [DeployFailedAlert(d0.botName, failure.value)];
      }
      deployments := deployments[id := d];
    }

    /** The stages of `deployBotAsync` on the stored record `d0`: each
        assigns its status and logs its step until one throws; a failure
        marks the record failed with its error. Returns the final record,
        the error, if any, and the statuses assigned. */
    static method RunStages(d0: Deployment, run: DeployRun, now: int)
      returns (d: Deployment, failure: Option<string>, ghost path: seq<DeployStatus>)
      ensures d == AfterPipeline(d0, run, now)
      ensures failure == FailureOf(run)
      ensures path == StatusPath(run)
    {
      d := d0;
      failure := None;
      path := [];
      d := d.(status := Provisioning);
      path := path + [Provisioning];
      d := d.(steps := d.steps + [DeployStep(now, ProvisioningStarted)]);
      match run.provision {
        case Failure(e) =>
          failure := Some(e);
        case Success(inst) =>
          d := d.(instanceId := Some(inst.instanceId), publicIp := Some(inst.publicIp));
          d := d.(steps := d.steps + [DeployStep(now, InstanceCreated(inst.instanceId))]);
          if run.ready.Threw? {
            failure := Some(run.ready.message);
          } else {
            d := d.(steps := d.steps + [DeployStep(now, InstanceReady)]);
            d := d.(status := Configuring);
            path := path + [Configuring];
            if run.configure.Threw? {
              failure := Some(run.configure.message);
            } else {
              d := d.(steps := d.steps + [DeployStep(now, Configured)]);
              if run.onboard.Threw? {
                failure := Some(run.onboard.message);
              } else {
                d := d.(steps := d.steps + [DeployStep(now, OnboardingCompleted)]);
                d := d.(status := Testing);
                path := path + [Testing];
                if run.responsive {
                  d := d.(status := Completed, completedAt := Some(now));
                  path := path + [Completed];
                  d := d.(steps := d.steps + [DeployStep(now, DeploymentSucceeded(d0.botName))]);
                } else {
                  failure := Some(ResponsivenessError);
                }
              }
            }
          }
      }
      if failure.Some? {
        d := d.(status := Failed, error := failure, failedAt := Some(now));
        path := path + [Failed];
        d := d.(steps := d.steps + [DeployStep(now, DeploymentFailed(failure.value))]);
      }
      assert failure == FailureOf(run);
      assert d.steps == d0.steps + StepLog(run, d0.botName, now);
    }

    /** `updateBotHealthStatus`: prunes the bot's history to the last 24
        hours, appends the sample, and, only for a registered bot, copies the
        sample and the new failure run into its entry. */
    method UpdateBotHealthStatus(botId: string, sample: HealthSample, now: int)
      requires Valid()
      modifies this`healthHistory, this`registry
      ensures Valid()
      ensures healthHistory == old(healthHistory)[botId := UpdatedHistory(HistoryOf(old(healthHistory), botId), sample, now)]
      ensures botId in old(registry) ==>
        registry == old(registry)[botId := WithHealth(old(registry)[botId], sample, healthHistory[botId])]
      ensures botId !in old(registry) ==> registry == old(registry)
    {
      ghost var h0 := HistoryOf(healthHistory, botId);
      if botId !in healthHistory {
        healthHistory := healthHistory[botId := []];
      }
      assert healthHistory[botId] == h0;
      var cutoff := now - HistoryWindowMs;
      healthHistory := healthHistory[botId := Prune(healthHistory[botId], cutoff)];
      healthHistory := healthHistory[botId := healthHistory[botId] + [sample]];
      var hist := healthHistory[botId];
      assert hist == UpdatedHistory(h0, sample, now);
      if botId in registry {
        var failures := ConsecutiveFailures(hist);
        var rec := registry[botId].(healthScore := sample.score, status := sample.status,
                                    lastHealthCheck := sample.timestamp, consecutiveFailures := Some(failures));
        assert rec == WithHealth(registry[botId], sample, hist);
        assert WellFormed(botId, rec);
        registry := registry[botId := rec];
      }
    }

    /** `performEmergencyRecovery`: fails for a bot that is not registered,
        changing nothing; otherwise runs the method's two steps, re-probes
        the bot with `reprobe` when the method is known, and sends the one
        alert matching the outcome. */
    method PerformEmergencyRecovery(botId: string, methodName: string, recoveryId: string, reprobe: ProbeRun, now: int)
      returns (r: Result<Recovery, string>)
      modifies this`sent
      ensures botId !in registry ==>
        r == Failure("Bot " + botId + " not found in registry") && sent == old(sent)
      ensures botId in registry ==>
        && r == Success(RecoveryOf(recoveryId, botId, methodName, ExpectedScore(reprobe), now))
        && sent == old(sent) + [RecoveryNotice(botId, methodName, ExpectedScore(reprobe))]
    {
      if botId !in registry {
        return Failure("Bot " + botId + " not found in registry");
      }
      var rec := Recovery(recoveryId, botId, methodName, now, [], FailedRecovery, None, None, None, None);
      var known := true;
      if methodName == "restart" || methodName == "auto-restart" {
        rec := rec.(steps := rec.steps + [RecoveryStep(GatewayRestart, now)]);
        rec := rec.(steps := rec.steps + [RecoveryStep(RestartCompleted, now)]);
      } else if methodName == "reboot" {
        rec := rec.(steps := rec.steps + [RecoveryStep(InstanceReboot, now)]);
        rec := rec.(steps := rec.steps + [RecoveryStep(RebootCompleted, now)]);
      } else if methodName == "redeploy" {
        rec := rec.(steps := rec.steps + [RecoveryStep(FullRedeploy, now)]);
        rec := rec.(steps := rec.steps + [RecoveryStep(RedeployCompleted, now)]);
      } else {
        known := false;
      }
      if known {
        assert rec.steps == MethodSteps(methodName, now).value;
        var check := CheckBotHealth(reprobe, now);
        if check.score > RecoveredScore {
          rec := rec.(status := Successful, finalHealthScore := Some(check.score));
          sent := sent + [RecoveredAlert(botId, methodName)];
        } else {
          rec := rec.(status := Partial, finalHealthScore := Some(check.score));
          sent := sent + [PartialRecoveryAlert(botId, methodName, check.score)];
        }
        rec := rec.(completedAt := Some(now));
      } else {
        assert methodName !in KnownMethods;
        var message := UnknownMethodError(methodName);
        rec := rec.(status := FailedRecovery, error := Some(message), failedAt := Some(now));
        sent := sent + [RecoveryFailedAlert(botId, message)];
      }
      r := Success(rec);
    }

    /** One iteration of `performHealthMonitoring`, with the alert sent
        and the recovery guard reading the stored failure run: probes the
        registered bot `botId` with `probe`, records the sample, then raises
        the alerts its score and failure run call for. */
    method MonitorBot(botId: string, probe: ProbeRun, reprobe: ProbeRun, now: nat)
      requires Valid() && botId in registry
      modifies this`registry, this`healthHistory, this`sent
      ensures Valid()
      ensures var s := ProbeSample(probe, now);
        var h := UpdatedHistory(HistoryOf(old(healthHistory), botId), s, now);
        && healthHistory == old(healthHistory)[botId := h]
        && registry == old(registry)[botId := WithHealth(old(registry)[botId], s, h)]
        && sent == old(sent) + Escalate(botId, s.score, Some(ConsecutiveFailures(h)), ExpectedScore(reprobe))
    {
      var sample := CheckBotHealth(probe, now);
      UpdateBotHealthStatus(botId, sample, now);
      RaiseAlerts(botId, sample.score, reprobe, now);
    }

    /** The alerts of the loop body for a bot whose new score is `score`:
        a health alert below 50, then, below 20 with three failures in a
        row stored in its entry, an auto-recovery re-probed with `reprobe`. */
    method RaiseAlerts(botId: string, score: int, reprobe: ProbeRun, now: nat)
      requires botId in registry
      modifies this`sent
      ensures sent == old(sent) + Escalate(botId, score, registry[botId].consecutiveFailures, ExpectedScore(reprobe))
    {
      if score < AlertBelow {
        sent := sent + [HealthDegradedAlert(botId, score)];
      }
      if score < RecoverBelow && registry[botId].consecutiveFailures.Some?
         && registry[botId].consecutiveFailures.value >= RecoverAfterFailures {
        var _ := PerformEmergencyRecovery(botId, AutoRestart, "auto_recovery_" + NatToString(now), reprobe, now);
      }
    }

    /** `performHealthMonitoring` as evidently meant: visits the registered
        bots in the order `order`, the i-th probed with `probes[i]` and, if
        recovered, re-probed with `reprobes[i]`. */
    method PerformHealthMonitoring(order: seq<string>, probes: seq<ProbeRun>, reprobes: seq<ProbeRun>, now: nat)
      requires Valid()
      requires forall i :: 0 <= i < |order| ==> order[i] in registry
      requires forall id :: id in registry ==> id in order
      requires forall k, j :: 0 <= k < j < |order| ==> order[k] != order[j]
      requires |probes| == |order| && |reprobes| == |order|
      modifies this`registry, this`healthHistory, this`sent
      ensures Valid()
      ensures FleetView(registry, healthHistory, sent)
        == Monitored(old(FleetView(registry, healthHistory, sent)), order, probes, reprobes, now, PassCorrected)
    {
      ghost var v := FleetView(registry, healthHistory, sent);
      var k := 0;
      while k < |order|
        invariant 0 <= k <= |order|
        invariant Valid()
        invariant registry.Keys == v.registry.Keys
        invariant FleetView(registry, healthHistory, sent) == Monitored(v, order[..k], probes[..k], reprobes[..k], now, PassCorrected)
      {
        VisitBot(order[k], probes[k], reprobes[k], now);
        MonitoredSnoc(v, order, probes, reprobes, now, PassCorrected, k);
        k := k + 1;
      }
      assert order[..k] == order && probes[..k] == probes && reprobes[..k] == reprobes;
    }

    /** One visit of the monitoring loop, stated on the view it acts on. */
    method VisitBot(botId: string, probe: ProbeRun, reprobe: ProbeRun, now: nat)
      requires Valid() && botId in registry
      modifies this`registry, this`healthHistory, this`sent
      ensures Valid()
      ensures FleetView(registry, healthHistory, sent)
        == MonitorStep(old(FleetView(registry, healthHistory, sent)), botId, probe, reprobe, now, PassCorrected)
    {
      ghost var before := FleetView(registry, healthHistory, sent);
      CorrectedStep(before, botId, probe, reprobe, now);
      MonitorBot(botId, probe, reprobe, now);
    }

    /** The startup loop: re-registers, in the order `ids`, every stored
        deployment that completed and has an address. */
    method RebuildRegistry(ids: seq<string>)
      requires Valid()
      requires forall i :: 0 <= i < |ids| ==> ids[i] in deployments
      requires forall id :: id in deployments ==> id in ids
      requires forall k, j :: 0 <= k < j < |ids| ==> ids[k] != ids[j]
      modifies this`registry
      ensures Valid()
      ensures registry == Rebuilt(old(registry), InOrder(deployments, ids))
      ensures forall name :: name in registry <==>
        name in old(registry) || exists id :: id in deployments && Qualifies(deployments[id]) && deployments[id].botName == name
    {
      ghost var reg0 := registry;
      ReplayDeployments(ids);
      RebuiltCoversStored(reg0, deployments, ids);
    }

    /** The startup loop itself: each listed deployment in turn. */
    method ReplayDeployments(ids: seq<string>)
      requires Valid()
      requires forall i :: 0 <= i < |ids| ==> ids[i] in deployments
      modifies this`registry
      ensures Valid()
      ensures registry == Rebuilt(old(registry), InOrder(deployments, ids))
    {
      ghost var reg0 := registry;
      ghost var ds := InOrder(deployments, ids);
      var k := 0;
      while k < |ids|
        invariant 0 <= k <= |ids|
        invariant registry == Rebuilt(reg0, ds[..k])
        invariant Valid()
      {
        var d := deployments[ids[k]];
        assert ds[..k + 1] == ds[..k] + [d];
        RebuiltSnoc(reg0, ds[..k], d);
        if d.status == Completed && Present(d.publicIp) {
          registry := registry[d.botName := RestoredRecord(d)];
        }
        k := k + 1;
      }
      assert ds[..k] == ds;
    }

    /** `loadState`: the stored keys replace the ones in memory; an
        unreadable or unparsable file (`None`) changes nothing. */
    method LoadState(doc: Option<StoredState>)
      modifies this`deployments, this`healthHistory, this`alerts
      ensures doc.None? ==> deployments == old(deployments) && healthHistory == old(healthHistory) && alerts == old(alerts)
      ensures doc.Some? ==>
        && deployments == (if doc.value.deployments.Some? then doc.value.deployments.value else old(deployments))
        && healthHistory == (if doc.value.healthHistory.Some? then doc.value.healthHistory.value else old(healthHistory))
        && alerts == (if doc.value.alerts.Some? then doc.value.alerts.value else old(alerts))
    {
      if doc.Some? {
        var s := doc.value;
        if s.deployments.Some? {
          deployments := s.deployments.value;
        }
        if s.healthHistory.Some? {
          healthHistory := s.healthHistory.value;
        }
        if s.alerts.Some? {
          alerts := s.alerts.value;
        }
      }
    }
  }
}

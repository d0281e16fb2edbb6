/** `performEmergencyRecovery`: the fixed two-step sequence of each
    recovery method, the outcome read from the re-probe score, and the one
    alert every call sends. */
module Recovery {
  import opened Common
  import opened Notices

  datatype RecoveryStepName =
    | GatewayRestart | RestartCompleted
    | InstanceReboot | RebootCompleted
    | FullRedeploy | RedeployCompleted

  datatype RecoveryStep = RecoveryStep(step: RecoveryStepName, timestamp: int)

  datatype RecoveryStatus = Successful | Partial | FailedRecovery

  /** The record a recovery returns. */
  datatype Recovery = Recovery(
    id: string,
    botId: string,
    methodName: string,
    startedAt: int,
    steps: seq<RecoveryStep>,
    status: RecoveryStatus,
    finalHealthScore: Option<int>,
    error: Option<string>,
    completedAt: Option<int>,
    failedAt: Option<int>)

  const KnownMethods: set<string> := {"restart", "auto-restart", "reboot", "redeploy"}

  /** A re-probe above this score makes the recovery successful. */
  const RecoveredScore: int := 70

  /** The step pair a method runs, or `None` for a method the switch does
      not know. */
  function MethodSteps(methodName: string, now: int): (r: Option<seq<RecoveryStep>>)
    ensures r.Some? <==> methodName in KnownMethods
    ensures r.Some? ==> |r.value| == 2 && r.value[0].timestamp == now && r.value[1].timestamp == now
  {
    if methodName == "restart" || methodName == "auto-restart" then
      Some([RecoveryStep(GatewayRestart, now), RecoveryStep(RestartCompleted, now)])
    else if methodName == "reboot" then
      Some([RecoveryStep(InstanceReboot, now), RecoveryStep(RebootCompleted, now)])
    else if methodName == "redeploy" then
      Some([RecoveryStep(FullRedeploy, now), RecoveryStep(RedeployCompleted, now)])
    else None
  }

  /** The error of an unknown method. */
  function UnknownMethodError(methodName: string): string
  {
    "Unknown recovery method: " + methodName
  }

  /** `restart` and `auto-restart` are the same case; the three distinct
      cases run distinct actions, each followed by its own completion step. */
  lemma MethodStepsDistinct(now: int)
    ensures MethodSteps("restart", now) == MethodSteps("auto-restart", now)
    ensures MethodSteps("restart", now) != MethodSteps("reboot", now)
    ensures MethodSteps("restart", now) != MethodSteps("redeploy", now)
    ensures MethodSteps("reboot", now) != MethodSteps("redeploy", now)
  {
  }

  /** The recovery record for a registered bot: `score` is the re-probe
      score, read only when the method is known. */
  function RecoveryOf(recoveryId: string, botId: string, methodName: string, score: int, now: int): Recovery
  {
    var started := Recovery(recoveryId, botId, methodName, now, [], FailedRecovery, None, None, None, None);
    match MethodSteps(methodName, now)
    case None =>
      started.(status := FailedRecovery, error := Some(UnknownMethodError(methodName)), failedAt := Some(now))
    case Some(steps) =>
      started.(steps := steps, status := if score > RecoveredScore then Successful else Partial,
               finalHealthScore := Some(score), completedAt := Some(now))
  }

  /** The one alert a recovery of a registered bot sends. */
  function RecoveryNotice(botId: string, methodName: string, score: int): Notice
  {
    if methodName !in KnownMethods then RecoveryFailedAlert(botId, UnknownMethodError(methodName))
    else if score > RecoveredScore then RecoveredAlert(botId, methodName)
    else PartialRecoveryAlert(botId, methodName, score)
  }

  /** An unknown method fails with no steps and its error; a known one runs
      its two steps and succeeds exactly when the re-probe scores above 70,
      keeping the score either way; the alert matches the outcome. */
  lemma RecoveryOutcome(recoveryId: string, botId: string, methodName: string, score: int, now: int)
    ensures var r := RecoveryOf(recoveryId, botId, methodName, score, now);
      && r.id == recoveryId && r.botId == botId && r.methodName == methodName && r.startedAt == now
      && (methodName !in KnownMethods ==>
            && r.status == FailedRecovery && r.steps == []
            && r.error == Some(UnknownMethodError(methodName)) && r.failedAt == Some(now)
            && r.completedAt.None? && r.finalHealthScore.None?)
      && (methodName in KnownMethods ==>
            && |r.steps| == 2 && r.error.None? && r.completedAt == Some(now) && r.failedAt.None?
            && r.finalHealthScore == Some(score)
            && (r.status == Successful <==> score > RecoveredScore)
            && (r.status == Partial <==> score <= RecoveredScore))
      && (r.status == Successful <==> RecoveryNotice(botId, methodName, score).RecoveredAlert?)
      && (r.status == Partial <==> RecoveryNotice(botId, methodName, score).PartialRecoveryAlert?)
      && (r.status == FailedRecovery <==> RecoveryNotice(botId, methodName, score).RecoveryFailedAlert?)
  {
  }
}


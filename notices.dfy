/** The Telegram alerts the orchestrator sends, one constructor per alert
    text; the transport is not part of this model. */
module Notices {
  import opened Templates

  datatype Notice =
    | DeployedAlert(botName: string, botType: BotType, ip: string)
    | DeployFailedAlert(botName: string, error: string)
    | RecoveredAlert(botId: string, methodName: string)
    | PartialRecoveryAlert(botId: string, methodName: string, score: int)
    | RecoveryFailedAlert(botId: string, error: string)
    | HealthDegradedAlert(botId: string, score: int)
}


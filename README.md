# Fleet controller of the NoHire team tools, in Dafny

This project models the three controllers that keep a small fleet of chat
bots running. It proves properties of each one.

- **Bot orchestrator** (`skills/bot-orchestrator/orchestrator.js`). It
  validates `POST /deploy` requests and runs the deployment pipeline
  (provision → configure → test) through its status state machine. It
  registers bots that deploy successfully and scores each bot's health
  from a probe. It keeps a 24-hour health history per bot and derives the
  run of consecutive failures from it. It escalates low scores to alerts
  and to an emergency recovery. It also computes the dashboard summary and
  the list of active alerts, and rebuilds the registry at startup from the
  stored deployments.
- **CALM heartbeat** (`skills/calm-skill/calm-heartbeat.js`). It switches
  a bot between normal mode (a 30-minute heartbeat) and priority mode (a
  1-minute heartbeat). It persists the mode in a state file and pushes the
  interval to the bot's configuration. A timer cools priority mode down
  after four hours. The controller also parses the mesh messages that
  request either switch.
- **Watchdog** (`skills/watchdog-bot/watchdog-bot.js`). It probes the six
  configured bots over the mesh network. It restarts every bot that does
  not answer and clears the sessions of a bot whose context usage is above
  85 %. Every action is reported to Discord.

Modules:

| module | file | contents |
|---|---|---|
| `Common` | common.dfy | `Option`/`Result`, substring search, decimal rendering |
| `Templates` | templates.dfy | the four bot types and their templates |
| `Deployments` | deployments.dfy | deploy request validation, deployment record, status state machine, one pipeline run |
| `HealthScoring` | health.dfy | probe score, status bands, history window, failure run |
| `Registry` | registry.dfy | registry entries and the startup rebuild |
| `Notices` | notices.dfy | the alert messages sent to the operators' channel |
| `Recovery` | recovery.dfy | the recovery methods and their outcome |
| `Escalation` | escalation.dfy | one monitoring visit as written and as meant; the monitoring pass over the fleet |
| `Alerts` | alerts.dfy | unresolved alerts, newest first |
| `Dashboard` | dashboard.dfy | the dashboard summary |
| `Fleet` | fleet.dfy | the orchestrator state (`FleetState`) and the operations that change it |
| `Calm` | calm.dfy | the CALM state record, status check, message parsing and the controller (`CalmHeartbeat`) |
| `Watchdog` | watchdog.dfy | probe results, the action per result, the effects of one round, and the controller (`WatchdogBot`) |

The orchestrator and the two controllers work by updating state step by
step. Each of them is a class: `FleetState` holds the registry, the
deployments, the health histories, the stored alerts and the log of sent
alerts. `CalmHeartbeat` holds the state file, the pushed intervals and the
pending timers. `WatchdogBot` holds the log of its SSH commands, pauses and
Discord messages. Each method's contract gives its new state as a function
of its old state. The properties of those functions are proved as
separate lemmas.

Everything outside the process is a parameter of the operation that calls
it. This covers:

- the result of an HTTP probe (`ProbeRun`);
- the outcome of each pipeline stage (`DeployRun`);
- the outcome of a `curl` run (`CurlRun`);
- whether a file write or a configuration push succeeded (`writeOk`, `pushOk`);
- the current time (`now`).

Where the stated design and the code disagree, the model follows the code:

- **Auto-cooldown timers.** Activating priority mode starts a new four-hour
  timer every time. Deactivating does not cancel any timer. So after
  re-activations or a manual cooldown, stale timers still fire and
  deactivate priority mode. `CalmHeartbeat.timers` keeps every pending
  timer, and `FireAutoCooldown` fires any one of them.
- **Busy check.** `isBotBusy` always answers "not busy"
  (calm-heartbeat.js:110-114), so the "queue for later" branches of
  activation and deactivation never run. They are not modelled.
- **Repeated switches.** Re-activating priority mode rewrites its task
  and adds another timer. Deactivating in normal mode writes the record
  and pushes the interval again. Neither is treated as a no-op.
- **Concurrent recoveries.** A recovery is never rejected because another
  one is in progress for the same bot; the code keeps no such record.
- **Repeated health alerts.** A bot scoring below 50 gets a health alert
  on every monitoring pass. There is no debounce to one alert per episode.
- **Duplicate bot names.** Deployments with the same bot name are not
  deduplicated. The later completed one overwrites the registry entry.
- **Defects fixed in `FleetState`.** The monitoring loop's alert call, its
  recovery guard and the deploy request's type check do not work as
  written; see "## Findings". `FleetState` runs the corrected versions:
  the type lookup `ParseBotType` and the visit rule `PassCorrected`. The
  code as written is kept beside them, as `TemplateLookupAsWritten` and
  `PassAsWritten`, with lemmas showing where each differs.

## Model

| member | source | states |
|---|---|---|
| Common.Contains | skills/calm-skill/calm-heartbeat.js:256-262 | `includes`: true exactly when the pattern occurs at some position of the message |
| Common.NatToString | skills/bot-orchestrator/orchestrator.js:152 | the decimal rendering of `Date.now()` is nonempty, all digits, and has no leading zero unless it is 0 |
| Templates.TemplatesComplete | skills/bot-orchestrator/orchestrator.js:47-88 | every bot type's template has a known instance type and model, every text field set, a positive cooldown and at least one capability |
| Templates.ParseBotType | skills/bot-orchestrator/orchestrator.js:146-150 | a type name is accepted exactly when it is one of the four template keys, and then names the type with that key |
| Templates.ParseTypeName | skills/bot-orchestrator/orchestrator.js:47-88 | the lookup inverts the key table: each type's key parses back to that type |
| Templates.AsWrittenAcceptsInheritedName | skills/bot-orchestrator/orchestrator.js:146 | the written truthiness check accepts "toString", which names no template; it accepts every name the corrected lookup accepts |
| Deployments.ValidateDeploy | skills/bot-orchestrator/orchestrator.js:138-150 | missing fields are rejected exactly when a name, type or token is absent or empty; corrected (see ## Findings): an unknown type is rejected with its name; an accepted request keeps the fields, and the environment defaults to "production" |
| Deployments.DeploymentId | skills/bot-orchestrator/orchestrator.js:152 | the id starts with `deploy_` and ends with the bot's name |
| Deployments.NewDeployment | skills/bot-orchestrator/orchestrator.js:155-162 | a new record has status starting, an empty step log, the request's name, type and environment, and the start time |
| Deployments.CompletedOnlyAfterTesting | skills/bot-orchestrator/orchestrator.js:230-256 | any status sequence the state machine allows that ends in completed is exactly starting, provisioning, configuring, testing, completed |
| Deployments.TerminalIsFinal | skills/bot-orchestrator/orchestrator.js:255-283 | completed and failed end every run: no status follows them |
| Deployments.FailureOf | skills/bot-orchestrator/orchestrator.js:231-284 | a run has no error exactly when provisioning, the readiness wait, configuration and onboarding succeed and the bot answers the test |
| Deployments.StatusPathIsRun | skills/bot-orchestrator/orchestrator.js:230-278 | the statuses a run assigns follow the state machine and end in completed exactly when no stage failed, otherwise in failed |
| Deployments.StepLogShape | skills/bot-orchestrator/orchestrator.js:231-283 | the step log opens with the provisioning step and ends with one verdict: success with six steps when nothing failed, otherwise the failure step with its error, and no verdict earlier |
| Deployments.AfterPipeline | skills/bot-orchestrator/orchestrator.js:225-284 | after a run the record keeps its identity, has the run's steps appended, carries the provisioned instance's id and address when provisioning succeeded (its old ones otherwise), and is completed (with completion time and address) or failed (with the error and failure time) exactly as the run succeeded or failed |
| Registry.OnlineRecord | skills/bot-orchestrator/orchestrator.js:261-270 | a deployed bot is registered online at score 100, with its type's template and the instance's address and id |
| Registry.WithHealth | skills/bot-orchestrator/orchestrator.js:502-511 | a health update copies the sample's score, status and time and sets a failure run of at most five; it keeps the identity fields and the well-formedness of the entry |
| Registry.RestoredRecord | skills/bot-orchestrator/orchestrator.js:736-744 | a restored entry has status unknown, score 0, the deployment's address, instance and completion time |
| Registry.RebuiltKeys | skills/bot-orchestrator/orchestrator.js:734-746 | after the rebuild the registry holds exactly the earlier ids and the names of the completed deployments with an address |
| Registry.RebuiltEntries | skills/bot-orchestrator/orchestrator.js:734-746 | a rebuilt name holds the entry restored from the last qualifying deployment of that name; every other entry is unchanged |
| Registry.RebuiltWellFormed | skills/bot-orchestrator/orchestrator.js:734-746 | the rebuild keeps every entry stored under its own id |
| HealthScoring.LatencyPenalty | skills/bot-orchestrator/orchestrator.js:466-469 | the latency penalty is between 0 and 20 |
| HealthScoring.Classify | skills/bot-orchestrator/orchestrator.js:482 | healthy exactly above 70, degraded exactly from 31 to 70, critical exactly at 30 or below |
| HealthScoring.CheckBotHealth | skills/bot-orchestrator/orchestrator.js:439-484 | the score is the reference score, 0 with status critical when a request threw, otherwise between 30 and 100; the status is its band and the sample is stamped now |
| HealthScoring.ScenarioScores | skills/bot-orchestrator/orchestrator.js:441-482 | all checks passing scores 100 (healthy), a failing health endpoint 70 (degraded), both failing at 12 s 30 (critical) |
| HealthScoring.Prune | skills/bot-orchestrator/orchestrator.js:495-499 | pruning never lengthens the history |
| HealthScoring.PruneSpec | skills/bot-orchestrator/orchestrator.js:495-499 | pruning keeps exactly the samples newer than the cutoff (a sample without a time is dropped) |
| HealthScoring.PruneAppend | skills/bot-orchestrator/orchestrator.js:495-499 | pruning keeps order: pruning a concatenation concatenates the pruned parts |
| HealthScoring.PruneKeepsRecent | skills/bot-orchestrator/orchestrator.js:495-499 | a history with only recent samples is left unchanged |
| HealthScoring.UpdatedHistorySpec | skills/bot-orchestrator/orchestrator.js:491-500 | after an update the history ends with the new sample, preceded by exactly the earlier samples of the last 24 hours |
| HealthScoring.NewestHealthyIndexSpec | skills/bot-orchestrator/orchestrator.js:509 | the reversed search stops at the newest sample above 50, past only failing samples, and gives -1 when all fail |
| HealthScoring.ConsecutiveFailures | skills/bot-orchestrator/orchestrator.js:506-510 | the failure run is at most five and at most the history's length |
| HealthScoring.ConsecutiveFailuresSpec | skills/bot-orchestrator/orchestrator.js:506-510 | the newest samples of the run all score 50 or less, and the sample before them, if within the last five, scores above 50 |
| HealthScoring.ConsecutiveFailuresUnique | skills/bot-orchestrator/orchestrator.js:506-510 | those two properties determine the failure run |
| HealthScoring.ConsecutiveFailuresStep | skills/bot-orchestrator/orchestrator.js:506-510 | a failing sample grows the run by one, up to five; a sample above 50 resets it to zero |
| Recovery.MethodSteps | skills/bot-orchestrator/orchestrator.js:533-559 | the four known methods each run two steps stamped now; any other method runs none |
| Recovery.MethodStepsDistinct | skills/bot-orchestrator/orchestrator.js:533-559 | restart and auto-restart run the same steps; restart, reboot and redeploy run different ones |
| Recovery.RecoveryOutcome | skills/bot-orchestrator/orchestrator.js:517-588 | an unknown method fails with its error and no steps; a known one completes with the re-probe score, successful exactly above 70, otherwise partial; the alert sent matches the outcome |
| Escalation.AsWrittenDegradedPass | skills/bot-orchestrator/orchestrator.js:408-430 | as written a visit sends no alert; below 50 it leaves the entry at score 0, status error, with no check time, and the error sample after the probe's sample |
| Escalation.AsWrittenGuardNeverHolds | skills/bot-orchestrator/orchestrator.js:422-425 | as written the recovery guard is false whatever the score |
| Escalation.EscalateSpec | skills/bot-orchestrator/orchestrator.js:416-425 | a visit alerts exactly below 50, recovers exactly below 20 with three failures in a row, sends at most two alerts, and the health alert comes first |
| Escalation.RecoveryAfterThreeFailures | skills/bot-orchestrator/orchestrator.js:411-425 | the corrected visit starts a recovery exactly when the new score is below 20 and the two newest kept samples also failed |
| Escalation.DeadPass | skills/bot-orchestrator/orchestrator.js:441-511 | a dead probe appends a score-0 sample without pruning recent ones, grows the failure run by one up to five, and alerts |
| Escalation.ThreeDeadProbesAsWritten | skills/bot-orchestrator/orchestrator.js:408-430 | three dead probes a minute apart send no alert at all as written |
| Escalation.ThreeDeadProbesCorrected | skills/bot-orchestrator/orchestrator.js:408-430 | the same three probes, as meant, alert each time and start an auto-restart on the third |
| Escalation.MonitorStep | skills/bot-orchestrator/orchestrator.js:411-426 | a visit keeps the set of registered bots |
| Escalation.Monitored | skills/bot-orchestrator/orchestrator.js:408-437 | a monitoring pass keeps the set of registered bots |
| Escalation.MonitoredUntouched | skills/bot-orchestrator/orchestrator.js:408-437 | the pass leaves the entry and history of every bot it does not visit unchanged |
| Escalation.MonitoredVisited | skills/bot-orchestrator/orchestrator.js:408-437 | with each bot visited once, each bot ends as one visit on the starting state leaves it, whatever the order |
| Escalation.MonitoredNotices | skills/bot-orchestrator/orchestrator.js:408-437 | the pass sends each visited bot's alerts in visiting order, each as one visit on the starting state computes them |
| Escalation.CorrectedStep | skills/bot-orchestrator/orchestrator.js:411-425 | a corrected visit records the probe's sample in history and entry and sends the alerts that score and failure run call for |
| Escalation.MonitoredSnoc | skills/bot-orchestrator/orchestrator.js:411 | one more bot in the loop is one more visit on the state the loop reached |
| Alerts.Unresolved | skills/bot-orchestrator/orchestrator.js:634 | the filter keeps exactly the unresolved alerts, drawn from the input |
| Alerts.UnresolvedCounts | skills/bot-orchestrator/orchestrator.js:634 | each unresolved alert is kept as often as it is stored, and each resolved one is dropped |
| Alerts.UnresolvedAppend | skills/bot-orchestrator/orchestrator.js:634 | the filter keeps the stored order: filtering a concatenation filters each part in turn |
| Alerts.UnresolvedAtTime | skills/bot-orchestrator/orchestrator.js:634 | among the alerts of one creation time, the filter keeps the stored order |
| Alerts.Insert | skills/bot-orchestrator/orchestrator.js:635-636 | inserting into a newest-first list keeps it newest first and adds one element |
| Alerts.InsertPermutes | skills/bot-orchestrator/orchestrator.js:635-636 | insertion adds exactly the one alert |
| Alerts.SortNewestFirst | skills/bot-orchestrator/orchestrator.js:635-636 | the sort is newest first and a permutation of its input |
| Alerts.SortStable | skills/bot-orchestrator/orchestrator.js:635-636 | alerts with equal times keep their input order |
| Alerts.ActiveAlertsSpec | skills/bot-orchestrator/orchestrator.js:633-637 | the active alerts are exactly the unresolved ones, each as often as it is stored, newest first, and the unresolved alerts of each time in their stored order |
| Dashboard.RoundedMean | skills/bot-orchestrator/orchestrator.js:625 | `Math.round` of the mean: the nearest integer, halves rounded up; 0 with no bots |
| Dashboard.BandsPartition | skills/bot-orchestrator/orchestrator.js:620-624 | every bot is counted in exactly one band |
| Dashboard.BandOfOne | skills/bot-orchestrator/orchestrator.js:622-624 | a single bot is counted in the band of its score |
| Dashboard.SummarySpec | skills/bot-orchestrator/orchestrator.js:617-627 | the bands add up to the total; the average is 0 for an empty fleet and between 0 and 100 when every score is |
| Dashboard.CountsSwap | skills/bot-orchestrator/orchestrator.js:617-627 | the summary does not depend on the registry's iteration order |
| Fleet.InOrder | skills/bot-orchestrator/orchestrator.js:734 | the deployments in iteration order, one per id |
| Fleet.FleetState.constructor | skills/bot-orchestrator/orchestrator.js:90-98 | the process starts with an empty registry, no deployments, histories or alerts |
| Fleet.FleetState.StartDeployment | skills/bot-orchestrator/orchestrator.js:136-181 | corrected (see ## Findings), with the type check of `ValidateDeploy`: a rejected request stores nothing and answers with its error; an accepted one stores a new record under its id and answers with the id |
| Fleet.FleetState.AddDeploymentStep | skills/bot-orchestrator/orchestrator.js:395-403 | appends the step to a known deployment's log; an unknown id changes nothing |
| Fleet.FleetState.DeployBot | skills/bot-orchestrator/orchestrator.js:225-294 | the record becomes `AfterPipeline`; on success the bot is registered online with one deployed alert; on failure the registry is unchanged with one failure alert |
| Fleet.FleetState.RunStages | skills/bot-orchestrator/orchestrator.js:228-284 | the stage-by-stage record updates end in `AfterPipeline`, with the run's error and status sequence |
| Fleet.FleetState.UpdateBotHealthStatus | skills/bot-orchestrator/orchestrator.js:489-512 | the bot's history becomes the pruned history plus the sample; a registered bot's entry takes the sample and the new failure run; an unregistered bot's entry is not created |
| Fleet.FleetState.PerformEmergencyRecovery | skills/bot-orchestrator/orchestrator.js:517-588 | an unregistered bot fails with "not found" and sends nothing; otherwise the recovery record `RecoveryOf` and its one alert |
| Fleet.FleetState.MonitorBot | skills/bot-orchestrator/orchestrator.js:411-425 | one corrected visit: probe, history and entry update, then the escalation alerts |
| Fleet.FleetState.RaiseAlerts | skills/bot-orchestrator/orchestrator.js:416-425 | corrected (see ## Findings): sends the alerts `Escalate` names for the score and the stored failure run |
| Fleet.FleetState.PerformHealthMonitoring | skills/bot-orchestrator/orchestrator.js:408-437 | corrected (see ## Findings): the loop leaves registry, histories and alerts as `Monitored` with the rule `PassCorrected` over every registered bot, and keeps every entry well formed |
| Fleet.FleetState.VisitBot | skills/bot-orchestrator/orchestrator.js:411-426 | one loop iteration is one `MonitorStep` on the state it starts from |
| Fleet.FleetState.RebuildRegistry | skills/bot-orchestrator/orchestrator.js:734-746 | the startup loop, over every stored deployment once, leaves the registry as `Rebuilt` over them in order: the old entries plus the name of every stored deployment that completed and has an address |
| Fleet.FleetState.ReplayDeployments | skills/bot-orchestrator/orchestrator.js:734-746 | the loop over the listed deployments leaves the registry as `Rebuilt` over them in order |
| Fleet.RebuiltCoversStored | skills/bot-orchestrator/orchestrator.js:734-746 | over ids listing every stored deployment, the rebuilt registry holds exactly the old names and the name of every completed deployment with an address |
| Fleet.FleetState.LoadState | skills/bot-orchestrator/orchestrator.js:703-711 | a missing or unreadable file changes nothing; otherwise each top-level key in the file replaces the one in memory and the others stay |
| Calm.ReadDefaults | skills/calm-skill/calm-heartbeat.js:25-41 | without a readable file: normal mode, 30-minute and 1-minute intervals, no task, no activation |
| Calm.DeactivateAfterActivate | skills/calm-skill/calm-heartbeat.js:119-206 | activation then deactivation returns to normal mode at 30 minutes, keeps its task, trigger and activation time, and records the reason and time |
| Calm.StaleAfterActivation | skills/calm-skill/calm-heartbeat.js:224-234 | after an activation the status check warns exactly when more than four hours have passed, and not at exactly four hours |
| Calm.NormalNeverStale | skills/calm-skill/calm-heartbeat.js:217-243 | normal mode never warns, after a deactivation or with no file |
| Calm.FirstMatch | skills/calm-skill/calm-heartbeat.js:258 | the leftmost position where the `**Task**: ` label starts a nonempty rest of the line, or none |
| Calm.LineEnd | skills/calm-skill/calm-heartbeat.js:258 | `.+` stops at the first line terminator |
| Calm.ExtractTask | skills/calm-skill/calm-heartbeat.js:258-259 | no task exactly when no line has the label followed by text; a found task is the rest of the line after the first label followed by text, nonempty and on one line |
| Calm.ExtractTaskFinds | skills/calm-skill/calm-heartbeat.js:258-259 | a task written after the label, up to its line's end, is extracted whole when nothing before the label matches |
| Calm.BoldHeaderTask | skills/calm-skill/calm-heartbeat.js:258-259 | an activation message whose header is bold still yields the task line after the label |
| Calm.ParseSpec | skills/calm-skill/calm-heartbeat.js:253-267 | the activation marker wins; the deactivation marker alone deactivates; both carry "mesh-message"; without a task line it is "Unspecified urgent task" |
| Calm.MarkersDistinct | skills/calm-skill/calm-heartbeat.js:256-263 | the deactivation message does not contain the activation marker, so it deactivates |
| Calm.CalmHeartbeat.constructor | skills/calm-skill/calm-heartbeat.js:14-20 | the controller starts with the stored file, no pushes and no timers |
| Calm.CalmHeartbeat.WriteCalmState | skills/calm-skill/calm-heartbeat.js:46-60 | a successful write stores the state stamped now; a failed one leaves the file |
| Calm.CalmHeartbeat.UpdateHeartbeatConfig | skills/calm-skill/calm-heartbeat.js:80-105 | every call attempts a push; a successful one sets the bot's interval |
| Calm.CalmHeartbeat.Activate | skills/calm-skill/calm-heartbeat.js:119-164 | stores the priority record; pushes 1 minute only after a successful write; starts a four-hour timer only when both succeed; answers whether both did |
| Calm.CalmHeartbeat.Deactivate | skills/calm-skill/calm-heartbeat.js:169-206 | stores the normal record with the reason; pushes 30 minutes only after a successful write; cancels no timer |
| Calm.CalmHeartbeat.FireAutoCooldown | skills/calm-skill/calm-heartbeat.js:158-161 | a due timer is removed and deactivates with reason "auto-cooldown" |
| Calm.CalmHeartbeat.ProcessCalmMessage | skills/calm-skill/calm-heartbeat.js:253-267 | dispatches on the parsed message: activation with the extracted task, or deactivation, each giving the new file, pushes, interval and timers; any other message changes nothing |
| Watchdog.IpIn | skills/watchdog-bot/watchdog-bot.js:181 | the address of the first entry with that id; "undefined" exactly for an unknown id |
| Watchdog.IpOfConfigured | skills/watchdog-bot/watchdog-bot.js:17-24 | each of the six configured bots resolves to its own address |
| Watchdog.CheckMeshHealthSpec | skills/watchdog-bot/watchdog-bot.js:45-86 | a probe is healthy exactly when curl printed JSON, and then carries it; otherwise no data and an error naming the cause; timeout exactly when the timer fired first |
| Watchdog.ActionForSpec | skills/watchdog-bot/watchdog-bot.js:185-196 | an error or timeout restarts; a healthy probe clears sessions exactly when its usage is above 85; usage 85, no payload or no usage does nothing |
| Watchdog.UnansweredProbeRestarts | skills/watchdog-bot/watchdog-bot.js:45-86 | a failed, timed-out or non-JSON probe always restarts the bot |
| Watchdog.EffectsOfSnoc | skills/watchdog-bot/watchdog-bot.js:179 | each loop iteration adds that result's effects |
| Watchdog.EffectsOfAppend | skills/watchdog-bot/watchdog-bot.js:178-199 | processing two batches in turn equals processing them joined |
| Watchdog.RestartOrder | skills/watchdog-bot/watchdog-bot.js:117-154 | a restart kills before it starts and alerts once, last; a session clear removes sessions first, restarts with one kill, and alerts twice |
| Watchdog.CountsAppend | skills/watchdog-bot/watchdog-bot.js:178-199 | kills and alerts add up over concatenated effect logs |
| Watchdog.EffectCounts | skills/watchdog-bot/watchdog-bot.js:178-199 | one kill per result that calls for action; one alert per action plus one per clear |
| Watchdog.WatchdogBot.constructor | skills/watchdog-bot/watchdog-bot.js:223-224 | the watchdog starts with no effects |
| Watchdog.WatchdogBot.RestartBot | skills/watchdog-bot/watchdog-bot.js:117-135 | appends kill, two-second pause, start, restart alert |
| Watchdog.WatchdogBot.ClearBotSessions | skills/watchdog-bot/watchdog-bot.js:140-154 | appends the session removal, a restart and the clear alert |
| Watchdog.WatchdogBot.ProcessHealthResults | skills/watchdog-bot/watchdog-bot.js:178-199 | appends the effects of every result in input order |
| Watchdog.WatchdogBot.HandleResult | skills/watchdog-bot/watchdog-bot.js:180-197 | appends the effects of the action the result calls for |
| Watchdog.WatchdogBot.RunHealthChecks | skills/watchdog-bot/watchdog-bot.js:204-218 | probes the six bots in configuration order and handles the results |
| Watchdog.WatchdogBot.StartWatchdog | skills/watchdog-bot/watchdog-bot.js:223-232 | sends the online alert, then runs the first round |
| Watchdog.Probed | skills/watchdog-bot/watchdog-bot.js:207-212 | one result per configured bot, in configuration order, each for its own id |
| Watchdog.AllTimedOut | skills/watchdog-bot/watchdog-bot.js:204-218 | a round in which every probe times out kills and alerts six times |
| Watchdog.AllActing | skills/watchdog-bot/watchdog-bot.js:185-188 | timed-out results all call for action and none for a clear |

## Left out

- HTTP routing and transport: `/health`, `/dashboard`, `GET /deploy/:id`,
  `POST /recover/:botId` (its default method and the recovery id format),
  the JSON answers and their status codes beyond the validation errors.
  They are I/O around the modelled operations.
- The remote calls themselves: EC2 provisioning, the readiness wait, SSH
  configuration, onboarding, `verifyBotResponsive`, `makeHttpRequest`,
  `executeSSHCommand`, the Telegram and Discord senders and `curl`. Their
  outcomes are parameters; a sent alert is an entry of a log.
- Timers and intervals (`setInterval`, the probe timeouts, the two-second
  pause as wall time), signal handlers and the interleaving of concurrent
  async operations. Each operation runs to completion at one time `now`.
- `checkBotHealth`'s per-probe metrics object and the error message it
  records. The score, status and time are modelled.
- `calculateSystemMetrics` and `saveState`. They only read state or write
  it to disk.
- `loadState`'s file read and JSON parsing. The parsed document is a
  parameter, reduced to the three keys the rest of the model uses.
- The orchestrator's start-up sequence beyond the registry rebuild, and the
  CALM command-line `main`: argument handling and console output.
- `checkStatus`'s console text. Its outcome is the record it reads plus
  whether it warns.
- Fleet.FleetState.DeployBot: the registry entry and the alert are stated
  for the end of the run only. The order of the intermediate writes to the
  record, the registry and the alert channel is not modelled.
- Calm.CalmHeartbeat.Activate: activation and deactivation see no busy
  bot, as `isBotBusy` always answers; the queueing branches are dead code.
- Watchdog.ActionFor: `contextUsage` is a number or absent. A non-numeric
  value compared with `>` is not modelled.
- Watchdog.WatchdogBot.RunHealthChecks: the `Promise.all` failure branch
  is not modelled, because every probe resolves.
- Alerts.SortNewestFirst: every alert has a numeric creation time. An
  alert whose `createdAt` is missing or does not parse makes the sort's
  comparator give NaN; that case is not modelled.
- Deployments.ValidateDeploy: `botName`, `botType` and `telegramToken`
  are strings or absent. A truthy value of another JSON type (a number, an
  object) is not modelled.
- Fleet.FleetState.UpdateBotHealthStatus: bot names are taken to be
  plain keys. The deploy route accepts any nonempty name, including a
  property that every JavaScript object inherits (`toString`,
  `constructor`). For such a name the lookup at orchestrator.js:490 finds
  the inherited function, and the `.filter` at line 496 throws. The model
  records the sample instead.
- Fleet.FleetState.PerformHealthMonitoring: bot names are taken to be plain
  keys. With a bot named after an inherited property, the throw from line
  496 repeats inside the catch at line 429, and the pass stops before the
  remaining bots and without saving state. The model visits every bot.
- Fleet.FleetState.PerformEmergencyRecovery: bot names are taken to be
  plain keys. For an inherited property name, the registry checks at
  orchestrator.js:201 and 521 pass and a recovery runs for a bot that does
  not exist. The model answers "not found".
- An `activated_at` that does not parse as a date (NaN elapsed time) is not
  modelled. The CALM record stores the activation time as a number.
- Integer width: times and scores are unbounded integers. No computation of
  the source comes near 2^53.

## Findings

| source | as written | input that shows it | evidently intended | confidence | as-written member | corrected member |
|---|---|---|---|---|---|---|
| skills/bot-orchestrator/orchestrator.js:418 | the health alert calls `triggerHealthAlert`, which is defined nowhere; the call throws, the catch block records an error sample without a time, and no alert is sent | a bot whose probe throws (score 0) on three passes a minute apart | every score below 50 sends a health alert and the entry keeps the probe's sample | not executed | Escalation.ThreeDeadProbesAsWritten | Escalation.ThreeDeadProbesCorrected |
| skills/bot-orchestrator/orchestrator.js:422 | the auto-recovery guard reads `healthResult.consecutive_failures`, a field `checkBotHealth` never returns, so `undefined >= 3` is false | any score below 20, for example 0 | recovery starts after three failures in a row, read from the stored failure run | not executed | Escalation.AsWrittenGuardNeverHolds | Escalation.RecoveryAfterThreeFailures |
| skills/bot-orchestrator/orchestrator.js:146 | `BOT_TEMPLATES[botType]` is truthy for every property a plain object inherits | a deploy request with bot type "toString" | only the four template keys are accepted | not executed | Templates.AsWrittenAcceptsInheritedName | Templates.ParseBotType |

/** The deployment pipeline's values: the `POST /deploy` request and its
    validation, the deployment record, its status state machine, and what
    one run of `deployBotAsync` writes into the record. */
module Deployments {
  import opened Common
  import opened Templates

  /** The JSON body of `POST /deploy`; an absent field is `None`. */
  datatype DeployRequest = DeployRequest(
    botName: Option<string>,
    botType: Option<string>,
    telegramToken: Option<string>,
    environment: Option<string>)

  /** The two 400 answers of the endpoint. */
  datatype DeployError = MissingFields | UnknownBotType(name: string)

  /** A request that passed validation. */
  datatype ValidDeploy = ValidDeploy(botName: string, botType: BotType, telegramToken: string, environment: string)

  const DefaultEnvironment: string := "production"

  /** Request validation: the three required fields must be truthy, then
      the type must name a template. */
  function ValidateDeploy(req: DeployRequest): (r: Result<ValidDeploy, DeployError>)
    ensures r == Failure(MissingFields) <==>
      !(Present(req.botName) && Present(req.botType) && Present(req.telegramToken))
    ensures r.Failure? && r.error.UnknownBotType? <==>
      Present(req.botName) && Present(req.botType) && Present(req.telegramToken) && req.botType.value !in TypeNames
    ensures r.Failure? && r.error.UnknownBotType? ==> r.error.name == req.botType.value
    ensures r.Success? ==>
      && Some(r.value.botName) == req.botName && r.value.botName != ""
      && Some(TypeName(r.value.botType)) == req.botType
      && Some(r.value.telegramToken) == req.telegramToken && r.value.telegramToken != ""
      && r.value.environment == (if req.environment.None? then DefaultEnvironment else req.environment.value)
  {
    if !(Present(req.botName) && Present(req.botType) && Present(req.telegramToken)) then
      Failure(MissingFields)
    else
      match ParseBotType(req.botType.value)
      case None => Failure(UnknownBotType(req.botType.value))
      case Some(t) =>
        Success(ValidDeploy(req.botName.value, t, req.telegramToken.value,
                            if req.environment.None? then DefaultEnvironment else req.environment.value))
  }

  /** `deploy_${Date.now()}_${botName}`. */
  function DeploymentId(now: nat, botName: string): (id: string)
    ensures |id| > 7 + |botName|
    ensures id[..7] == "deploy_" && id[|id| - |botName|..] == botName
  {
    "deploy_" + NatToString(now) + "_" + botName
  }

  datatype DeployStatus = Starting | Provisioning | Configuring | Testing | Completed | Failed

  /** The messages `deployBotAsync` appends to the step log. */
  datatype StepMessage =
    | ProvisioningStarted
    | InstanceCreated(instanceId: string)
    | InstanceReady
    | Configured
    | OnboardingCompleted
    | DeploymentSucceeded(botName: string)
    | DeploymentFailed(error: string)

  datatype DeployStep = DeployStep(timestamp: int, message: StepMessage)

  datatype Deployment = Deployment(
    botName: string,
    botType: BotType,
    environment: string,
    status: DeployStatus,
    startedAt: int,
    steps: seq<DeployStep>,
    instanceId: Option<string>,
    publicIp: Option<string>,
    completedAt: Option<int>,
    error: Option<string>,
    failedAt: Option<int>)

  /** The record the endpoint stores before launching the pipeline. */
  function NewDeployment(v: ValidDeploy, now: int): (d: Deployment)
    ensures d.status == Starting && d.steps == []
    ensures d.botName == v.botName && d.botType == v.botType && d.environment == v.environment
    ensures d.startedAt == now
  {
    Deployment(v.botName, v.botType, v.environment, Starting, now, [], None, None, None, None, None)
  }

  // ----- state machine -----

  predicate Terminal(s: DeployStatus)
  {
    s == Completed || s == Failed
  }

  /** The status changes the pipeline can make: one stage forward, or from
      any non-terminal status to `Failed`. */
  predicate Transition(a: DeployStatus, b: DeployStatus)
  {
    || (a == Starting && b == Provisioning)
    || (a == Provisioning && b == Configuring)
    || (a == Configuring && b == Testing)
    || (a == Testing && b == Completed)
    || (!Terminal(a) && b == Failed)
  }

  /** A sequence of statuses that the pipeline can go through, starting
      from `Starting`. */
  predicate IsRun(path: seq<DeployStatus>)
  {
    && |path| >= 1
    && path[0] == Starting
    && forall i :: 0 <= i < |path| - 1 ==> Transition(path[i], path[i + 1])
  }

  /** `Completed` is only reached through every stage in order: the one
      run that ends in `Completed` is the full one. */
  lemma {:induction false} CompletedOnlyAfterTesting(path: seq<DeployStatus>)
    requires IsRun(path) && path[|path| - 1] == Completed
    ensures path == [Starting, Provisioning, Configuring, Testing, Completed]
  {
    var n := |path|;
    assert n >= 2;
    assert path[n - 2] == Testing;
    assert n >= 3;
    assert path[n - 3] == Configuring;
    assert n >= 4;
    assert path[n - 4] == Provisioning;
    assert n >= 5;
    assert path[n - 5] == Starting;
    if n > 5 {
      StepAt(path, n - 6);
      assert false;
    }
  }

  lemma StepAt(path: seq<DeployStatus>, i: int)
    requires IsRun(path) && 0 <= i < |path| - 1
    ensures Transition(path[i], path[i + 1])
  {
  }

  /** A terminal status ends every run it occurs in. */
  lemma TerminalIsFinal(path: seq<DeployStatus>, i: int)
    requires IsRun(path) && 0 <= i < |path| && Terminal(path[i])
    ensures i == |path| - 1
  {
    if i < |path| - 1 {
      StepAt(path, i);
      assert false;
    }
  }

  // ----- one pipeline run -----

  /** The outcome of a pipeline stage that can throw. */
  datatype Outcome = Done | Threw(message: string)

  datatype Instance = Instance(instanceId: string, publicIp: string)

  /** What the collaborators of one pipeline run did: provisioning (an
      instance or an error), the readiness wait, configuration, onboarding,
      and the answer of the responsiveness check. */
  datatype DeployRun = DeployRun(
    provision: Result<Instance, string>,
    ready: Outcome,
    configure: Outcome,
    onboard: Outcome,
    responsive: bool)

  const ResponsivenessError: string := "Bot deployment completed but failed responsiveness test"

  /** The message of the first failing stage, or `None` when every stage
      succeeded. */
  function FailureOf(run: DeployRun): (f: Option<string>)
    ensures f.None? <==>
      run.provision.Success? && run.ready.Done? && run.configure.Done? && run.onboard.Done? && run.responsive
  {
    if run.provision.Failure? then Some(run.provision.error)
    else if run.ready.Threw? then Some(run.ready.message)
    else if run.configure.Threw? then Some(run.configure.message)
    else if run.onboard.Threw? then Some(run.onboard.message)
    else if !run.responsive then Some(ResponsivenessError)
    else None
  }

  /** The statuses a run assigns, in order. */
  function StatusPath(run: DeployRun): seq<DeployStatus>
  {
    if run.provision.Failure? || run.ready.Threw? then [Provisioning, Failed]
    else if run.configure.Threw? || run.onboard.Threw? then [Provisioning, Configuring, Failed]
    else if !run.responsive then [Provisioning, Configuring, Testing, Failed]
    else [Provisioning, Configuring, Testing, Completed]
  }

  /** Every run follows the state machine and ends in `Completed` exactly
      when no stage failed. */
  lemma StatusPathIsRun(run: DeployRun)
    ensures IsRun([Starting] + StatusPath(run))
    ensures var p := StatusPath(run);
      p[|p| - 1] == (if FailureOf(run).None? then Completed else Failed)
  {
  }

  /** The progress entries a run appends, one per stage that finished. */
  function ProgressSteps(run: DeployRun, now: int): seq<DeployStep>
  {
    if run.provision.Failure? then []
    else if run.ready.Threw? then
      [DeployStep(now, InstanceCreated(run.provision.value.instanceId))]
    else if run.configure.Threw? then
      [DeployStep(now, InstanceCreated(run.provision.value.instanceId)), DeployStep(now, InstanceReady)]
    else if run.onboard.Threw? then
      [DeployStep(now, InstanceCreated(run.provision.value.instanceId)), DeployStep(now, InstanceReady),
       DeployStep(now, Configured)]
    else
      [DeployStep(now, InstanceCreated(run.provision.value.instanceId)), DeployStep(now, InstanceReady),
       DeployStep(now, Configured), DeployStep(now, OnboardingCompleted)]
  }

  /** The step log entries a run appends: the opening entry, the progress
      entries, and the verdict. */
  function StepLog(run: DeployRun, botName: string, now: int): seq<DeployStep>
  {
    var verdict := match FailureOf(run)
      case None => DeploymentSucceeded(botName)
      case Some(e) => DeploymentFailed(e);
    [DeployStep(now, ProvisioningStarted)] + ProgressSteps(run, now) + [DeployStep(now, verdict)]
  }

  /** The log of a run starts with the provisioning step and ends with one
      verdict: the success step exactly when no stage failed, otherwise the
      failure step carrying the error, which occurs nowhere else. */
  lemma StepLogShape(run: DeployRun, botName: string, now: int)
    ensures var log := StepLog(run, botName, now);
      && 2 <= |log| <= 6
      && log[0].message == ProvisioningStarted
      && (FailureOf(run).None? <==> log[|log| - 1].message == DeploymentSucceeded(botName))
      && (FailureOf(run).None? ==> |log| == 6)
      && (FailureOf(run).Some? ==> log[|log| - 1].message == DeploymentFailed(FailureOf(run).value))
      && forall k :: 0 <= k < |log| - 1 ==> !log[k].message.DeploymentFailed? && !log[k].message.DeploymentSucceeded?
  {
  }

  /** The deployment record after a run of the pipeline. */
  function AfterPipeline(d: Deployment, run: DeployRun, now: int): (d': Deployment)
    ensures d'.botName == d.botName && d'.botType == d.botType
    ensures d'.environment == d.environment && d'.startedAt == d.startedAt
    ensures d'.steps == d.steps + StepLog(run, d.botName, now)
    ensures d'.status == Completed <==> FailureOf(run).None?
    ensures d'.status == Failed <==> FailureOf(run).Some?
    ensures d'.status == Failed ==> d'.error == FailureOf(run) && d'.failedAt == Some(now)
    ensures d'.status == Completed ==> d'.completedAt == Some(now) && d'.publicIp.Some?
    ensures run.provision.Success? ==>
      d'.instanceId == Some(run.provision.value.instanceId) && d'.publicIp == Some(run.provision.value.publicIp)
    ensures run.provision.Failure? ==> d'.instanceId == d.instanceId && d'.publicIp == d.publicIp
  {
    var withInstance :=
      if run.provision.Success?
      then d.(instanceId := Some(run.provision.value.instanceId), publicIp := Some(run.provision.value.publicIp))
      else d;
    var logged := withInstance.(steps := d.steps + StepLog(run, d.botName, now));
    match FailureOf(run)
    case None => logged.(status := Completed, completedAt := Some(now))
    case Some(e) => logged.(status := Failed, error := Some(e), failedAt := Some(now))
  }
}

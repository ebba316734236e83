/**
 * The deployment handler of deployment-lambda/index.ts as a pure specification:
 * the trace of actions one invocation issues and how it settles, given the
 * configuration, the event and the outcome of every external call.
 */
module Deployment {
  import opened Wrappers
  import opened Shell
  import opened Naming
  import opened Actions

  /** The request the workflow engine passes to the handler. */
  datatype DeploymentInput = DeploymentInput(
    repositoryUrl: string,
    branch: string,
    project: string,
    projectPath: Option<string>,
    stack: Option<string>,
    environments: Option<seq<string>>,
    destroy: Option<bool>)

  /** The request and the task token its completion is reported under. */
  datatype DeploymentEvent = DeploymentEvent(input: DeploymentInput, taskToken: string)

  /** The process environment read by the handler: ORGANIZATION and PULUMI_ACCESS_TOKEN. */
  datatype Environment = Environment(organization: Option<string>, accessToken: Option<string>)

  /** The library function `fullyQualifiedStackName(org, project, stack)`, whose body is not modelled. */
  type StackNamer = (string, string, string) -> string

  /** The summary of a finished update or destroy. */
  datatype Summary = Summary(result: string, message: string)

  /** What `up` or `destroy` resolves with. */
  datatype OperationResult = OperationResult(summary: Summary, outputs: map<string, OutputValue>)

  /** How an `up` or `destroy` goes: the engine events it streams, then how it settles. */
  datatype OperationOutcome = OperationOutcome(events: nat, result: Result<OperationResult, string>)

  /** The outcome of every external call the handler can make in one invocation. */
  datatype Oracle = Oracle(
    newBranch: ExecOutcome,
    createOrSelectStack: Outcome,
    patchSettings: Outcome,
    up: OperationOutcome,
    destroy: OperationOutcome,
    deleteStack: ExecOutcome,
    deleteBranch: ExecOutcome,
    tagStack: ExecOutcome,
    sendTaskSuccess: Outcome,
    sendTaskFailure: Outcome)

  /** The actions issued, in order, and how the invocation settled. */
  datatype Run<+R> = Run(trace: seq<Action>, result: R)

  const Region: string := "us-west-2"
  const CatalogTagName: string := "pulumi:sc"
  const CatalogTagValue: string := "true"

  /** `if (event.input.destroy)`: only an explicit `true` selects the destroy path. */
  predicate IsDestroy(input: DeploymentInput) {
    input.destroy == Some(true)
  }

  function Branch(env: Environment, input: DeploymentInput): string {
    BranchName(Organization(env.organization), input.project, input.stack)
  }

  function StackName(env: Environment, qualify: StackNamer, input: DeploymentInput): string {
    qualify(Organization(env.organization), input.project, StackOrDefault(input.stack))
  }

  /** The environment variables of the remote run and of the deployment settings. */
  function EnvVars(env: Environment): (vars: map<string, string>)
    ensures vars.Keys == {"AWS_REGION", "PULUMI_ACCESS_TOKEN"}
    ensures vars["AWS_REGION"] == Region
    ensures vars["PULUMI_ACCESS_TOKEN"] == (if env.accessToken.Some? then env.accessToken.value else "")
  {
    map["AWS_REGION" := Region, "PULUMI_ACCESS_TOKEN" := env.accessToken.GetOr("")]
  }

  /** The `createOrSelectRemoteStack` call: the stack's name and branch, the project path or "", the run's environment. */
  function WorkspaceCall(env: Environment, qualify: StackNamer, input: DeploymentInput): (call: Action)
    ensures call.CreateOrSelectStack?
    ensures call.stackName == StackName(env, qualify, input) && call.branch == Branch(env, input)
    ensures call.repositoryUrl == input.repositoryUrl
    ensures call.projectPath == (if input.projectPath.Some? then input.projectPath.value else "")
    ensures call.envVars == EnvVars(env)
    ensures call.preRunCommands == PreRunCommands(input.environments, call.stackName)
  {
    var stackName := StackName(env, qualify, input);
    CreateOrSelectStack(stackName, input.repositoryUrl, Branch(env, input), input.projectPath.GetOr(""),
                        EnvVars(env), PreRunCommands(input.environments, stackName))
  }

  /** The deployment-settings patch: source, branch and directory of the stack's code, pre-run list, environment. */
  function SettingsCall(env: Environment, qualify: StackNamer, input: DeploymentInput): (call: Action)
    ensures call.PatchSettings?
    ensures call.stackName == StackName(env, qualify, input) && call.branch == Branch(env, input)
    ensures call.repositoryUrl == input.repositoryUrl && call.repoDir == input.projectPath
    ensures call.envVars == EnvVars(env)
    ensures call.preRunCommands == PreRunCommands(input.environments, call.stackName)
  {
    var stackName := StackName(env, qualify, input);
    PatchSettings(stackName, input.repositoryUrl, input.projectPath, Branch(env, input),
                  PreRunCommands(input.environments, stackName), EnvVars(env))
  }

  /** The trace of `deploy` and the value it returns or the message it throws. */
  function DeployRun(env: Environment, qualify: StackNamer, ev: DeploymentEvent, o: Oracle)
    : (r: Run<Result<DeployOutput, string>>)
    ensures Started(env, qualify, ev.input) <= r.trace
    ensures r.result.Failure? && r.trace == Started(env, qualify, ev.input) <==> o.createOrSelectStack.Fail?
  {
    var input := ev.input;
    var started := Started(env, qualify, input);
    if o.createOrSelectStack.Fail? then
      Run(started, Failure(o.createOrSelectStack.message))
    else
      var rest := if IsDestroy(input) then DestroyPath(StackName(env, qualify, input), input, ev.taskToken, o)
                  else UpdatePath(env, qualify, ev, o);
      Run(started + rest.trace, rest.result)
  }

  /** The calls up to selecting the stack: the new branch (not on destroy), then the workspace. */
  function Started(env: Environment, qualify: StackNamer, input: DeploymentInput): seq<Action> {
    (if IsDestroy(input) then [] else [NewBranch(input.repositoryUrl, input.branch, Branch(env, input))])
    + [WorkspaceCall(env, qualify, input)]
  }

  /** The destroy branch of `deploy`, once the stack is selected. */
  function DestroyPath(stackName: string, input: DeploymentInput, taskToken: string, o: Oracle)
    : Run<Result<DeployOutput, string>>
  {
    var ran := [Destroy(stackName)] + Heartbeats(taskToken, o.destroy.events);
    match o.destroy.result
    case Failure(message) => Run(ran, Failure(message))
    case Success(res) =>
      Run(ran + [DeleteStack(stackName), DeleteBranch(input.repositoryUrl, stackName)],
          Success(DeployOutput(res.summary.result, res.summary.message, map[])))
  }

  /** The create/update branch of `deploy`, once the stack is selected. */
  function UpdatePath(env: Environment, qualify: StackNamer, ev: DeploymentEvent, o: Oracle)
    : Run<Result<DeployOutput, string>>
  {
    var stackName := StackName(env, qualify, ev.input);
    var patched := [SettingsCall(env, qualify, ev.input)];
    if o.patchSettings.Fail? then
      Run(patched, Failure(o.patchSettings.message))
    else
      var ran := patched + [Up(stackName)] + Heartbeats(ev.taskToken, o.up.events);
      match o.up.result
      case Failure(message) => Run(ran, Failure(message))
      case Success(res) =>
        Run(ran + [TagStack(stackName, CatalogTagName, CatalogTagValue)],
            Success(DeployOutput(res.summary.result, res.summary.message, res.outputs)))
  }

  /** Reporting a failure: the message cut to 255 characters; the handler settles as that call does. */
  function ReportFailure(trace: seq<Action>, taskToken: string, message: string, sent: Outcome): Run<Outcome> {
    Run(trace + [SendTaskFailure(taskToken, Truncate(message))], sent)
  }

  /**
   * The trace of `handler` and how its promise settles: `Pass` when it resolves,
   * `Fail` with the reason when the failure report itself is rejected.
   */
  function HandlerRun(env: Environment, qualify: StackNamer, ev: DeploymentEvent, o: Oracle): (h: Run<Outcome>)
    ensures DeployRun(env, qualify, ev, o).trace < h.trace
    ensures |h.trace| <= |DeployRun(env, qualify, ev, o).trace| + 2
    ensures h.result.Fail? ==> h.result == o.sendTaskFailure
  {
    var d := DeployRun(env, qualify, ev, o);
    match d.result
    case Success(output) =>
      var reported := d.trace + [SendTaskSuccess(ev.taskToken, output)];
      if o.sendTaskSuccess.Pass? then Run(reported, Pass)
      else ReportFailure(reported, ev.taskToken, o.sendTaskSuccess.message, o.sendTaskFailure)
    case Failure(message) =>
      ReportFailure(d.trace, ev.taskToken, message, o.sendTaskFailure)
  }

  // ----- Reference definitions -----

  /** Every call of a create or update that succeeds, in the order they are made. */
  function CreateSchedule(env: Environment, qualify: StackNamer, ev: DeploymentEvent, o: Oracle): seq<Action> {
    var input := ev.input;
    var stackName := StackName(env, qualify, input);
    [ NewBranch(input.repositoryUrl, input.branch, Branch(env, input)),
      WorkspaceCall(env, qualify, input),
      SettingsCall(env, qualify, input),
      Up(stackName) ]
    + Heartbeats(ev.taskToken, o.up.events)
    + [TagStack(stackName, CatalogTagName, CatalogTagValue)]
  }

  /** Every call of a destroy that succeeds, in the order they are made. */
  function DestroySchedule(env: Environment, qualify: StackNamer, ev: DeploymentEvent, o: Oracle): seq<Action> {
    var input := ev.input;
    var stackName := StackName(env, qualify, input);
    [WorkspaceCall(env, qualify, input), Destroy(stackName)]
    + Heartbeats(ev.taskToken, o.destroy.events)
    + [DeleteStack(stackName), DeleteBranch(input.repositoryUrl, stackName)]
  }

  /** The first failing call among those whose failure is not caught. */
  function EssentialFailure(input: DeploymentInput, o: Oracle): Option<string> {
    if o.createOrSelectStack.Fail? then Some(o.createOrSelectStack.message)
    else if IsDestroy(input) then
      if o.destroy.result.Failure? then Some(o.destroy.result.error) else None
    else if o.patchSettings.Fail? then Some(o.patchSettings.message)
    else if o.up.result.Failure? then Some(o.up.result.error)
    else None
  }

  /** The number of engine events the handler was listening to. */
  function EventsHeard(input: DeploymentInput, o: Oracle): nat {
    if o.createOrSelectStack.Fail? then 0
    else if IsDestroy(input) then o.destroy.events
    else if o.patchSettings.Fail? then 0
    else o.up.events
  }
}

/**
 * The `POST /api/execute` route of the catalog site: it turns the request body
 * into the input of a workflow execution and starts that execution.
 */
module ExecuteRoute {

  /** A field of the JSON request body: missing, `null`, or a value. */
  datatype Field<+T> = Undefined | Null | Defined(value: T)

  /** The request body (`StartExecutionRequest`). */
  datatype StartExecutionRequest = StartExecutionRequest(
    repositoryUrl: string,
    branch: Field<string>,
    projectPath: Field<string>,
    project: string,
    stack: string,
    environments: Field<seq<string>>)

  /** A value of the workflow input object. */
  datatype Json = JString(s: string) | JStrings(items: seq<string>) | JNull

  /** The branch used when the request names none. */
  const DefaultBranch: string := "refs/heads/main"
  /** The branch the input object is first created with, before the branch is set again. */
  const InitialBranch: string := "/refs/heads/main"
  /** The keys the route may forward. */
  const ForwardedKeys: set<string> := {"repository_url", "branch", "project", "projectPath", "environments"}
  const StateMachineArn: string := "arn:aws:states:us-west-2:052848974346:stateMachine:sc-deployment-state-machine"

  function StringJson(f: Field<string>): Json
    requires !f.Undefined?
  {
    if f.Null? then JNull else JString(f.value)
  }

  function StringsJson(f: Field<seq<string>>): Json
    requires !f.Undefined?
  {
    if f.Null? then JNull else JStrings(f.value)
  }

  /** The workflow input, key by key: the optional keys appear only when the request defines them. */
  function WorkflowInput(req: StartExecutionRequest): (input: map<string, Json>)
    ensures input.Keys <= ForwardedKeys && "stack" !in input && "destroy" !in input
    ensures "repository_url" in input && input["repository_url"] == JString(req.repositoryUrl)
    ensures "project" in input && input["project"] == JString(req.project)
    ensures "branch" in input
    ensures req.branch.Defined? ==> input["branch"] == JString(req.branch.value)
    ensures req.branch.Undefined? ==> input["branch"] == JString(DefaultBranch)
    ensures req.branch.Null? ==> input["branch"] == JNull
    ensures "projectPath" in input <==> !req.projectPath.Undefined?
    ensures req.projectPath.Defined? ==> input["projectPath"] == JString(req.projectPath.value)
    ensures req.projectPath.Null? ==> input["projectPath"] == JNull
    ensures "environments" in input <==> !req.environments.Undefined?
    ensures req.environments.Defined? ==> input["environments"] == JStrings(req.environments.value)
    ensures req.environments.Null? ==> input["environments"] == JNull
  {
    map["repository_url" := JString(req.repositoryUrl),
        "branch" := if req.branch.Undefined? then JString(DefaultBranch) else StringJson(req.branch),
        "project" := JString(req.project)]
    + (if req.projectPath.Undefined? then map[] else map["projectPath" := StringJson(req.projectPath)])
    + (if req.environments.Undefined? then map[] else map["environments" := StringsJson(req.environments)])
  }

  /**
   * Builds the input object as the route does, one conditional assignment at a
   * time. Repository and project are copied; the branch is the request's when
   * it is not undefined (a `null` is forwarded as `null`), "refs/heads/main"
   * otherwise; `projectPath` and `environments` are present exactly when the
   * request defines them; the stack is never forwarded.
   */
  method BuildInputJson(inputData: StartExecutionRequest) returns (inputJson: map<string, Json>)
    ensures inputJson == WorkflowInput(inputData)
  {
    // `inputData.branch ?? "/refs/heads/main"`: `??` replaces null as well as undefined
    var initialBranch := if inputData.branch.Defined? then JString(inputData.branch.value) else JString(InitialBranch);
    inputJson := map["repository_url" := JString(inputData.repositoryUrl),
                     "branch" := initialBranch,
                     "project" := JString(inputData.project)];

    if !inputData.projectPath.Undefined? {
      inputJson := inputJson["projectPath" := StringJson(inputData.projectPath)];
    }

    if !inputData.branch.Undefined? {
      inputJson := inputJson["branch" := StringJson(inputData.branch)];
    } else {
      inputJson := inputJson["branch" := JString(DefaultBranch)];
    }

    if !inputData.environments.Undefined? {
      inputJson := inputJson["environments" := StringsJson(inputData.environments)];
    }
  }

  /** The value first given to `branch` survives only where the request itself names that branch. */
  lemma InitialBranchOverwritten(req: StartExecutionRequest)
    ensures WorkflowInput(req)["branch"] == JString(InitialBranch) <==> req.branch == Defined(InitialBranch)
  {
  }

  /** The execution the route asks the workflow engine to start. */
  datatype StartExecution = StartExecution(stateMachineArn: string, input: map<string, Json>, name: string)

  /** What `startExecution` resolves with. */
  datatype StartedExecution = StartedExecution(executionArn: string, startDate: string)

  /** How the `startExecution` call settles. */
  datatype StartedExecutionOrError = Started(execution: StartedExecution) | StartFailed(message: string)

  /** The route's response: the started execution with status 200, or status 500. */
  datatype Response = Ok(execution: StartedExecution) | ServerError(message: string)

  /**
   * `POST`: builds the input, starts an execution named `name` (a fresh UUID)
   * on the deployment state machine, and answers with what the start returned
   * or with an error when it threw.
   */
  method Post(inputData: StartExecutionRequest, name: string, started: StartedExecutionOrError)
    returns (call: StartExecution, response: Response)
    ensures call == StartExecution(StateMachineArn, WorkflowInput(inputData), name)
    ensures response.Ok? <==> started.Started?
    ensures started.Started? ==> response == Ok(started.execution)
    ensures started.StartFailed? ==> response == ServerError(started.message)
  {
    var inputJson := BuildInputJson(inputData);
    call := StartExecution(StateMachineArn, inputJson, name);
    match started
    case Started(execution) => response := Ok(execution);
    case StartFailed(message) => response := ServerError(message);
  }
}

/**
 * The handler of deployment-lambda/index.ts as it runs: one object per
 * invocation whose methods issue the external calls in the order the source
 * awaits them, each proved to produce the trace that module Deployment specifies.
 */
module DeploymentLambda {
  import opened Wrappers
  import opened Shell
  import opened Naming
  import opened Actions
  import opened Deployment

  /**
   * One invocation: `trace` holds every external call issued so far, and
   * `oracle` says how each of them goes.
   */
  class Lambda {
    const env: Environment
    const oracle: Oracle
    var trace: seq<Action>

    constructor (env: Environment, oracle: Oracle)
      ensures this.env == env && this.oracle == oracle && trace == []
    {
      this.env := env;
      this.oracle := oracle;
      trace := [];
    }

    /** Issues one external call. */
    method Issue(call: Action)
      modifies this
      ensures trace == old(trace) + [call]
    {
      trace := trace + [call];
    }

    /** `execute`: runs the shell command that `command` stands for. */
    method Execute(command: Action, outcome: ExecOutcome) returns (r: Result<string, string>)
      modifies this
      ensures trace == old(trace) + [command]
      ensures r == Shell.Execute(outcome)
    {
      Issue(command);
      r := Shell.Execute(outcome);
    }

    /** `newBranch`: clone, branch and push; a rejection is caught and only logged. */
    method NewBranch(repositoryUrl: string, branch: string, stack: string)
      modifies this
      ensures trace == old(trace) + [Action.NewBranch(repositoryUrl, branch, stack)]
    {
      var settled := Execute(Action.NewBranch(repositoryUrl, branch, stack), oracle.newBranch);
    }

    /** `deleteBranch`: clone and delete the remote branch; a rejection is caught and only logged. */
    method DeleteBranch(repositoryUrl: string, stack: string)
      modifies this
      ensures trace == old(trace) + [Action.DeleteBranch(repositoryUrl, stack)]
    {
      var settled := Execute(Action.DeleteBranch(repositoryUrl, stack), oracle.deleteBranch);
    }

    /** `deleteStack`: `pulumi stack rm`; a rejection is caught and only logged. */
    method DeleteStack(stackName: string)
      modifies this
      ensures trace == old(trace) + [Action.DeleteStack(stackName)]
    {
      var settled := Execute(Action.DeleteStack(stackName), oracle.deleteStack);
    }

    /** `tagStack`: `pulumi stack tag set`; a rejection is caught and only logged. */
    method TagStack(stackName: string, tagName: string, tagValue: string)
      modifies this
      ensures trace == old(trace) + [Action.TagStack(stackName, tagName, tagValue)]
    {
      var settled := Execute(Action.TagStack(stackName, tagName, tagValue), oracle.tagStack);
    }

    /** `RemoteWorkspace.createOrSelectStack`. */
    method CreateOrSelectStack(stackName: string, repositoryUrl: string, branch: string, projectPath: string,
                               envVars: map<string, string>, preRunCommands: seq<string>)
      returns (r: Outcome)
      modifies this
      ensures trace == old(trace) + [Action.CreateOrSelectStack(stackName, repositoryUrl, branch, projectPath,
                                                                envVars, preRunCommands)]
      ensures r == oracle.createOrSelectStack
    {
      Issue(Action.CreateOrSelectStack(stackName, repositoryUrl, branch, projectPath, envVars, preRunCommands));
      r := oracle.createOrSelectStack;
    }

    /**
     * `patchDeploymentSettings`: builds its own pre-run command list and posts
     * the git source and operation context of the stack. The list it builds is
     * the one the workspace gets.
     */
    method PatchDeploymentSettings(stackName: string, input: DeploymentInput, branch: string) returns (r: Outcome)
      modifies this
      ensures trace == old(trace) + [PatchSettings(stackName, input.repositoryUrl, input.projectPath, branch,
                                                   PreRunCommands(input.environments, stackName), EnvVars(env))]
      ensures r == oracle.patchSettings
    {
      var preRunCommands: seq<string> := [];
      if input.environments.Some? && |input.environments.value| > 0 {
        var environments := Join(input.environments.value, " ");
        preRunCommands := preRunCommands + ["pulumi config env add " + environments + " --stack " + stackName + " --yes"];
      }
      assert preRunCommands == PreRunCommands(input.environments, stackName);
      Issue(PatchSettings(stackName, input.repositoryUrl, input.projectPath, branch, preRunCommands, EnvVars(env)));
      r := oracle.patchSettings;
    }

    /**
     * `stack.up` or `stack.destroy`: the operation is started, and each engine
     * event it streams calls `onEvent`, which sends one heartbeat.
     */
    method RunOperation(operation: Action, outcome: OperationOutcome, taskToken: string)
      returns (r: Result<OperationResult, string>)
      modifies this
      ensures trace == old(trace) + [operation] + Heartbeats(taskToken, outcome.events)
      ensures r == outcome.result
    {
      Issue(operation);
      var i := 0;
      while i < outcome.events
        invariant 0 <= i <= outcome.events
        invariant trace == old(trace) + [operation] + Heartbeats(taskToken, i)
      {
        Issue(Heartbeat(taskToken));
        assert Heartbeats(taskToken, i + 1) == Heartbeats(taskToken, i) + [Heartbeat(taskToken)];
        i := i + 1;
      }
      r := outcome.result;
    }

    /** `deploy`: the calls of the create/update or the destroy path, then the result. */
    method Deploy(qualify: StackNamer, ev: DeploymentEvent) returns (r: Result<DeployOutput, string>)
      modifies this
      ensures trace == old(trace) + DeployRun(env, qualify, ev, oracle).trace
      ensures r == DeployRun(env, qualify, ev, oracle).result
    {
      var input := ev.input;
      var org := Organization(env.organization);
      var branch := org + "/" + input.project + "/" + input.stack.GetOr("dev");

      if !IsDestroy(input) {
        NewBranch(input.repositoryUrl, input.branch, branch);
      }

      var stackName := qualify(org, input.project, input.stack.GetOr("dev"));

      var preRunCommands: seq<string> := [];
      if input.environments.Some? && |input.environments.value| > 0 {
        var environments := Join(input.environments.value, " ");
        preRunCommands := preRunCommands + ["pulumi config env add " + environments + " --stack " + stackName + " --yes"];
      }
      assert preRunCommands == PreRunCommands(input.environments, stackName);
      assert branch == Branch(env, input) && stackName == StackName(env, qualify, input);

      var workspace := CreateOrSelectStack(stackName, input.repositoryUrl, branch, input.projectPath.GetOr(""),
                                           EnvVars(env), preRunCommands);
      assert trace == old(trace) + Started(env, qualify, input);
      if workspace.Fail? {
        return Failure(workspace.message);
      }

      if IsDestroy(input) {
        r := DestroyStack(stackName, input, ev.taskToken);
      } else {
        r := UpdateStack(qualify, ev, stackName, branch);
      }
    }

    /** The destroy branch of `deploy`: destroy, then remove the stack and delete its branch. */
    method DestroyStack(stackName: string, input: DeploymentInput, taskToken: string)
      returns (r: Result<DeployOutput, string>)
      modifies this
      ensures trace == old(trace) + DestroyPath(stackName, input, taskToken, oracle).trace
      ensures r == DestroyPath(stackName, input, taskToken, oracle).result
    {
      var res := RunOperation(Action.Destroy(stackName), oracle.destroy, taskToken);
      if res.Failure? {
        return Failure(res.error);
      }
      DeleteStack(stackName);
      DeleteBranch(input.repositoryUrl, stackName);
      r := Success(DeployOutput(res.value.summary.result, res.value.summary.message, map[]));
    }

    /** The create/update branch of `deploy`: patch the settings, run `up`, tag the stack. */
    method UpdateStack(qualify: StackNamer, ev: DeploymentEvent, stackName: string, branch: string)
      returns (r: Result<DeployOutput, string>)
      requires stackName == StackName(env, qualify, ev.input) && branch == Branch(env, ev.input)
      modifies this
      ensures trace == old(trace) + UpdatePath(env, qualify, ev, oracle).trace
      ensures r == UpdatePath(env, qualify, ev, oracle).result
    {
      var patched := PatchDeploymentSettings(stackName, ev.input, branch);
      if patched.Fail? {
        return Failure(patched.message);
      }
      var res := RunOperation(Action.Up(stackName), oracle.up, ev.taskToken);
      if res.Failure? {
        return Failure(res.error);
      }
      TagStack(stackName, CatalogTagName, CatalogTagValue);
      r := Success(DeployOutput(res.value.summary.result, res.value.summary.message, res.value.outputs));
    }

    /** `stepFunctions.sendTaskSuccess`. */
    method SendTaskSuccess(taskToken: string, output: DeployOutput) returns (r: Outcome)
      modifies this
      ensures trace == old(trace) + [Action.SendTaskSuccess(taskToken, output)]
      ensures r == oracle.sendTaskSuccess
    {
      Issue(Action.SendTaskSuccess(taskToken, output));
      r := oracle.sendTaskSuccess;
    }

    /** `stepFunctions.sendTaskFailure`. */
    method SendTaskFailure(taskToken: string, error: string) returns (r: Outcome)
      modifies this
      ensures trace == old(trace) + [Action.SendTaskFailure(taskToken, error)]
      ensures r == oracle.sendTaskFailure
    {
      Issue(Action.SendTaskFailure(taskToken, error));
      r := oracle.sendTaskFailure;
    }

    /**
     * `handler`: deploys, then reports success; an error thrown by `deploy` or by
     * the success report is reported as a failure with its message cut to 255
     * characters. `r` is `Fail` when the handler's promise rejects.
     */
    method Handler(qualify: StackNamer, ev: DeploymentEvent) returns (r: Outcome)
      modifies this
      ensures trace == old(trace) + HandlerRun(env, qualify, ev, oracle).trace
      ensures r == HandlerRun(env, qualify, ev, oracle).result
    {
      var output := Deploy(qualify, ev);
      var thrown: string;
      if output.Success? {
        var sent := SendTaskSuccess(ev.taskToken, output.value);
        if sent.Pass? {
          return Pass;
        }
        thrown := sent.message;
      } else {
        thrown := output.error;
      }
      r := SendTaskFailure(ev.taskToken, Truncate(thrown));
    }
  }
}

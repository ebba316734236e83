/** What the deployment handler guarantees, proved of its specification in module Deployment. */
module DeploymentProperties {
  import opened Wrappers
  import opened Shell
  import opened Naming
  import opened Actions
  import opened Deployment

  /**
   * Create or update: the calls follow the schedule NewBranch, CreateOrSelectStack,
   * PatchSettings, Up, heartbeats, TagStack; a failing call is the last one made;
   * nothing is ever destroyed or deleted.
   */
  lemma CreatePathOrder(env: Environment, qualify: StackNamer, ev: DeploymentEvent, o: Oracle)
    requires !IsDestroy(ev.input)
    ensures var r := DeployRun(env, qualify, ev, o);
            var s := CreateSchedule(env, qualify, ev, o);
            && r.trace <= s
            && (r.result.Success? <==> r.trace == s)
            && (o.createOrSelectStack.Fail? ==> r.trace == s[..2])
            && (o.createOrSelectStack.Pass? && o.patchSettings.Fail? ==> r.trace == s[..3])
            && ((o.createOrSelectStack.Pass? && o.patchSettings.Pass? && o.up.result.Failure?)
                  ==> r.trace == s[..|s| - 1])
    ensures var t := DeployRun(env, qualify, ev, o).trace;
            forall k :: 0 <= k < |t| ==> !t[k].Destroy? && !t[k].DeleteStack? && !t[k].DeleteBranch?
  {
  }

  /**
   * Destroy: the calls follow the schedule CreateOrSelectStack, Destroy, heartbeats,
   * DeleteStack, DeleteBranch; a failing call is the last one made; no branch is
   * created, no settings are patched, nothing is updated or tagged.
   */
  lemma DestroyPathOrder(env: Environment, qualify: StackNamer, ev: DeploymentEvent, o: Oracle)
    requires IsDestroy(ev.input)
    ensures var r := DeployRun(env, qualify, ev, o);
            var s := DestroySchedule(env, qualify, ev, o);
            && r.trace <= s
            && (r.result.Success? <==> r.trace == s)
            && (o.createOrSelectStack.Fail? ==> r.trace == s[..1])
            && (o.createOrSelectStack.Pass? && o.destroy.result.Failure? ==> r.trace == s[..|s| - 2])
    ensures var t := DeployRun(env, qualify, ev, o).trace;
            forall k :: 0 <= k < |t| ==>
              !t[k].NewBranch? && !t[k].PatchSettings? && !t[k].Up? && !t[k].TagStack?
  {
  }

  /**
   * `deploy` throws exactly when a call whose failure is not caught fails, with
   * that call's message, and then skips the post-processing calls.
   */
  lemma FailuresPropagate(env: Environment, qualify: StackNamer, ev: DeploymentEvent, o: Oracle)
    ensures var r := DeployRun(env, qualify, ev, o);
            && (r.result.Failure? <==> EssentialFailure(ev.input, o).Some?)
            && (r.result.Failure? ==> r.result.error == EssentialFailure(ev.input, o).value)
    ensures var r := DeployRun(env, qualify, ev, o);
            r.result.Failure? ==>
              forall k :: 0 <= k < |r.trace| ==>
                !r.trace[k].TagStack? && !r.trace[k].DeleteStack? && !r.trace[k].DeleteBranch?
  {
  }

  /**
   * The failures of creating and deleting the branch, deleting the stack and
   * tagging it are caught: their outcomes change neither the trace nor the result.
   */
  lemma CaughtFailuresChangeNothing(env: Environment, qualify: StackNamer, ev: DeploymentEvent, o: Oracle,
                                    newBranch: ExecOutcome, deleteStack: ExecOutcome,
                                    deleteBranch: ExecOutcome, tagStack: ExecOutcome)
    ensures DeployRun(env, qualify, ev, o.(newBranch := newBranch, deleteStack := deleteStack,
                                            deleteBranch := deleteBranch, tagStack := tagStack))
         == DeployRun(env, qualify, ev, o)
  {
  }

  /**
   * On success the result and message are the operation summary's own; the
   * outputs are the stack's after an update and empty after a destroy.
   */
  lemma OutputCopiedFromSummary(env: Environment, qualify: StackNamer, ev: DeploymentEvent, o: Oracle)
    ensures var r := DeployRun(env, qualify, ev, o).result;
            var op := if IsDestroy(ev.input) then o.destroy.result else o.up.result;
            r.Success? ==>
              && op.Success?
              && r.value.result == op.value.summary.result
              && r.value.message == op.value.summary.message
              && r.value.outputs == (if IsDestroy(ev.input) then map[] else op.value.outputs)
  {
  }

  /** `n` heartbeats between actions that are not heartbeats count as `n`. */
  lemma CountHeartbeatsBetween(before: seq<Action>, taskToken: string, n: nat, after: seq<Action>)
    requires forall k :: 0 <= k < |before| ==> !before[k].Heartbeat?
    requires forall k :: 0 <= k < |after| ==> !after[k].Heartbeat?
    ensures Count(before + Heartbeats(taskToken, n) + after, IsHeartbeat) == n
  {
    CountNone(before, IsHeartbeat);
    CountNone(after, IsHeartbeat);
    CountHeartbeats(taskToken, n, IsHeartbeat);
    CountConcat(before, Heartbeats(taskToken, n), IsHeartbeat);
    CountConcat(before + Heartbeats(taskToken, n), after, IsHeartbeat);
  }

  /** One heartbeat for every engine event of the run. */
  lemma HeartbeatPerEvent(env: Environment, qualify: StackNamer, ev: DeploymentEvent, o: Oracle)
    ensures Count(DeployRun(env, qualify, ev, o).trace, IsHeartbeat) == EventsHeard(ev.input, o)
  {
    var input := ev.input;
    var started := Started(env, qualify, input);
    CountNone(started, IsHeartbeat);
    if o.createOrSelectStack.Fail? {
    } else if IsDestroy(input) {
      var stackName := StackName(env, qualify, input);
      DestroyHeartbeats(stackName, input, ev.taskToken, o);
      CountConcat(started, DestroyPath(stackName, input, ev.taskToken, o).trace, IsHeartbeat);
    } else {
      UpdateHeartbeats(env, qualify, ev, o);
      CountConcat(started, UpdatePath(env, qualify, ev, o).trace, IsHeartbeat);
    }
  }

  /** The destroy branch sends one heartbeat per event of `destroy`. */
  lemma DestroyHeartbeats(stackName: string, input: DeploymentInput, taskToken: string, o: Oracle)
    ensures Count(DestroyPath(stackName, input, taskToken, o).trace, IsHeartbeat) == o.destroy.events
  {
    var after := if o.destroy.result.Success? then [DeleteStack(stackName), DeleteBranch(input.repositoryUrl, stackName)] else [];
    CountHeartbeatsBetween([Destroy(stackName)], taskToken, o.destroy.events, after);
    assert DestroyPath(stackName, input, taskToken, o).trace
        == [Destroy(stackName)] + Heartbeats(taskToken, o.destroy.events) + after;
  }

  /** The create/update branch sends one heartbeat per event of `up`, and none when the patch fails. */
  lemma UpdateHeartbeats(env: Environment, qualify: StackNamer, ev: DeploymentEvent, o: Oracle)
    ensures Count(UpdatePath(env, qualify, ev, o).trace, IsHeartbeat) == (if o.patchSettings.Fail? then 0 else o.up.events)
  {
    var stackName := StackName(env, qualify, ev.input);
    if o.patchSettings.Fail? {
      CountNone([SettingsCall(env, qualify, ev.input)], IsHeartbeat);
    } else {
      var before := [SettingsCall(env, qualify, ev.input), Up(stackName)];
      var after := if o.up.result.Success? then [TagStack(stackName, CatalogTagName, CatalogTagValue)] else [];
      CountHeartbeatsBetween(before, ev.taskToken, o.up.events, after);
      assert UpdatePath(env, qualify, ev, o).trace == before + Heartbeats(ev.taskToken, o.up.events) + after;
    }
  }

  /** Every heartbeat is sent under the invocation's task token. */
  lemma HeartbeatsUseTaskToken(env: Environment, qualify: StackNamer, ev: DeploymentEvent, o: Oracle)
    ensures var t := DeployRun(env, qualify, ev, o).trace;
            forall k :: 0 <= k < |t| && t[k].Heartbeat? ==> t[k].taskToken == ev.taskToken
  {
  }

  /** `deploy` itself never reports to the workflow engine. */
  lemma DeployNeverReports(env: Environment, qualify: StackNamer, ev: DeploymentEvent, o: Oracle)
    ensures var t := DeployRun(env, qualify, ev, o).trace;
            forall k :: 0 <= k < |t| ==> !IsSuccessReport(t[k]) && !IsFailureReport(t[k])
  {
  }

  /**
   * After `deploy`'s calls the handler makes only its reports: the success report
   * when `deploy` returned, followed by a failure report only when that report
   * was rejected; a failure report alone when `deploy` threw. Every failure
   * report carries the message cut to 255 characters. The handler's promise
   * rejects only when the failure report is rejected.
   */
  lemma HandlerReports(env: Environment, qualify: StackNamer, ev: DeploymentEvent, o: Oracle)
    ensures var d := DeployRun(env, qualify, ev, o);
            var h := HandlerRun(env, qualify, ev, o);
            && d.trace <= h.trace
            && (d.result.Success? ==>
                  h.trace == d.trace + [SendTaskSuccess(ev.taskToken, d.result.value)]
                             + (if o.sendTaskSuccess.Pass? then []
                                else [SendTaskFailure(ev.taskToken, Truncate(o.sendTaskSuccess.message))]))
            && (d.result.Failure? ==> h.trace == d.trace + [SendTaskFailure(ev.taskToken, Truncate(d.result.error))])
            && h.result == (if d.result.Success? && o.sendTaskSuccess.Pass? then Pass else o.sendTaskFailure)
  {
  }

  /** The handler reports success exactly once when the deployment succeeded, and never otherwise. */
  lemma HandlerSuccessReports(env: Environment, qualify: StackNamer, ev: DeploymentEvent, o: Oracle)
    ensures Count(HandlerRun(env, qualify, ev, o).trace, IsSuccessReport)
            == (if DeployRun(env, qualify, ev, o).result.Success? then 1 else 0)
  {
    var d := DeployRun(env, qualify, ev, o);
    DeployNeverReports(env, qualify, ev, o);
    CountNone(d.trace, IsSuccessReport);
    match d.result
    case Success(output) =>
      var reported := d.trace + [SendTaskSuccess(ev.taskToken, output)];
      CountConcat(d.trace, [SendTaskSuccess(ev.taskToken, output)], IsSuccessReport);
      if o.sendTaskSuccess.Fail? {
        CountConcat(reported, [SendTaskFailure(ev.taskToken, Truncate(o.sendTaskSuccess.message))], IsSuccessReport);
      }
    case Failure(message) =>
      CountConcat(d.trace, [SendTaskFailure(ev.taskToken, Truncate(message))], IsSuccessReport);
  }

  /** The handler reports failure exactly once unless the success report went through, and then never. */
  lemma HandlerFailureReports(env: Environment, qualify: StackNamer, ev: DeploymentEvent, o: Oracle)
    ensures Count(HandlerRun(env, qualify, ev, o).trace, IsFailureReport)
            == (if DeployRun(env, qualify, ev, o).result.Success? && o.sendTaskSuccess.Pass? then 0 else 1)
  {
    var d := DeployRun(env, qualify, ev, o);
    DeployNeverReports(env, qualify, ev, o);
    CountNone(d.trace, IsFailureReport);
    match d.result
    case Success(output) =>
      var reported := d.trace + [SendTaskSuccess(ev.taskToken, output)];
      CountConcat(d.trace, [SendTaskSuccess(ev.taskToken, output)], IsFailureReport);
      if o.sendTaskSuccess.Fail? {
        CountConcat(reported, [SendTaskFailure(ev.taskToken, Truncate(o.sendTaskSuccess.message))], IsFailureReport);
      }
    case Failure(message) =>
      CountConcat(d.trace, [SendTaskFailure(ev.taskToken, Truncate(message))], IsFailureReport);
  }

  /**
   * The workspace and the deployment settings describe the same stack: one name,
   * one repository and branch, one environment, one pre-run list, and the
   * workspace's project path is the settings' directory or "".
   */
  lemma WorkspaceAgreesWithSettings(env: Environment, qualify: StackNamer, input: DeploymentInput)
    ensures var w := WorkspaceCall(env, qualify, input);
            var p := SettingsCall(env, qualify, input);
            && w.stackName == p.stackName && w.repositoryUrl == p.repositoryUrl && w.branch == p.branch
            && w.envVars == p.envVars && w.preRunCommands == p.preRunCommands
            && w.projectPath == p.repoDir.GetOr("")
  {
  }

  /** Every failure report carries the task token and at most 255 characters. */
  lemma FailureReportsBounded(env: Environment, qualify: StackNamer, ev: DeploymentEvent, o: Oracle)
    ensures var t := HandlerRun(env, qualify, ev, o).trace;
            forall k :: 0 <= k < |t| && t[k].SendTaskFailure? ==>
              t[k].taskToken == ev.taskToken && |t[k].error| <= MaxErrorLength
  {
    var d := DeployRun(env, qualify, ev, o);
    var t := HandlerRun(env, qualify, ev, o).trace;
    DeployNeverReports(env, qualify, ev, o);
    HandlerReports(env, qualify, ev, o);
    assert forall k :: 0 <= k < |d.trace| ==> t[k] == d.trace[k];
  }

  /**
   * With organization and project free of slashes, two requests get the same
   * branch exactly when they name the same project and the same stack, "dev"
   * standing for a missing one.
   */
  lemma BranchIdentifiesStack(env: Environment, i1: DeploymentInput, i2: DeploymentInput)
    requires '/' !in Organization(env.organization) && '/' !in i1.project && '/' !in i2.project
    ensures Branch(env, i1) == Branch(env, i2)
        <==> i1.project == i2.project && StackOrDefault(i1.stack) == StackOrDefault(i2.stack)
  {
    QualifiedInjective(Organization(env.organization), i1.project, StackOrDefault(i1.stack), Organization(env.organization), i2.project, StackOrDefault(i2.stack));
  }

  /**
   * Assuming `fullyQualifiedStackName` joins its arguments with slashes, the
   * stack a destroy removes and the branch it deletes are the ones the matching
   * create made: the same request with `destroy` unset.
   */
  lemma DestroyUndoesCreate(env: Environment, qualify: StackNamer, ev: DeploymentEvent, o: Oracle)
    requires forall org, project, stack :: qualify(org, project, stack) == Qualified(org, project, stack)
    ensures var create := CreateSchedule(env, qualify, ev.(input := ev.input.(destroy := None)), o);
            var destroy := DestroySchedule(env, qualify, ev.(input := ev.input.(destroy := Some(true))), o);
            && create[0].NewBranch? && create[1].CreateOrSelectStack?
            && destroy[|destroy| - 2] == DeleteStack(create[1].stackName)
            && destroy[|destroy| - 1] == DeleteBranch(create[0].repositoryUrl, create[0].branch)
  {
  }

  /** A stack that has no events and whose every call succeeds, reporting `summary`. */
  ghost predicate Smooth(o: Oracle, summary: Summary) {
    && o.createOrSelectStack.Pass? && o.patchSettings.Pass?
    && o.up == OperationOutcome(0, Success(OperationResult(summary, map[])))
    && o.destroy == OperationOutcome(0, Success(OperationResult(summary, map[])))
  }

  /** The request `{repository_url: "git@x/y.git", branch: "main", project: "demo", stack: "dev"}`. */
  function DemoInput(destroy: Option<bool>): DeploymentInput {
    DeploymentInput("git@x/y.git", "main", "demo", None, Some("dev"), None, destroy)
  }

  /** Creating the demo stack: branch and stack "initech/demo/dev", tagged, succeeded. */
  lemma CreateScenario(token: string, o: Oracle, summary: Summary)
    requires Smooth(o, summary)
    ensures var r := DeployRun(Environment(None, None), Qualified, DeploymentEvent(DemoInput(None), token), o);
            var env := EnvVars(Environment(None, None));
            && r.trace == [
                 NewBranch("git@x/y.git", "main", "initech/demo/dev"),
                 CreateOrSelectStack("initech/demo/dev", "git@x/y.git", "initech/demo/dev", "", env, []),
                 PatchSettings("initech/demo/dev", "git@x/y.git", None, "initech/demo/dev", [], env),
                 Up("initech/demo/dev"),
                 TagStack("initech/demo/dev", "pulumi:sc", "true")]
            && r.result == Success(DeployOutput(summary.result, summary.message, map[]))
  {
    DemoNames();
    assert Heartbeats(token, 0) == [];
  }

  /** Destroying it: destroyed, stack removed, branch "initech/demo/dev" deleted, no outputs. */
  lemma DestroyScenario(token: string, o: Oracle, summary: Summary)
    requires Smooth(o, summary)
    ensures var r := DeployRun(Environment(None, None), Qualified, DeploymentEvent(DemoInput(Some(true)), token), o);
            var env := EnvVars(Environment(None, None));
            && r.trace == [
                 CreateOrSelectStack("initech/demo/dev", "git@x/y.git", "initech/demo/dev", "", env, []),
                 Destroy("initech/demo/dev"),
                 DeleteStack("initech/demo/dev"),
                 DeleteBranch("git@x/y.git", "initech/demo/dev")]
            && r.result == Success(DeployOutput(summary.result, summary.message, map[]))
  {
    DemoNames();
    assert Heartbeats(token, 0) == [];
  }

  /** With environments ["prod", "eu"] both the stack and its settings get the one `env add` command. */
  lemma EnvironmentsScenario(token: string, o: Oracle)
    ensures var input := DemoInput(None).(environments := Some(["prod", "eu"]));
            var command := "pulumi config env add " + "prod eu" + " --stack " + "initech/demo/dev" + " --yes";
            && WorkspaceCall(Environment(None, None), Qualified, input).preRunCommands == [command]
            && SettingsCall(Environment(None, None), Qualified, input).preRunCommands == [command]
  {
    var input := DemoInput(None).(environments := Some(["prod", "eu"]));
    DemoNames();
    assert StackName(Environment(None, None), Qualified, input) == "initech/demo/dev";
    DemoCommand();
  }

  /** The command that adds "prod" and "eu" to the demo stack. */
  lemma DemoCommand()
    ensures EnvAddCommand(["prod", "eu"], "initech/demo/dev")
            == "pulumi config env add " + "prod eu" + " --stack " + "initech/demo/dev" + " --yes"
  {
    DemoJoin();
  }

  /** The demo environments, space-separated. */
  lemma DemoJoin()
    ensures Join(["prod", "eu"], " ") == "prod eu"
  {
    assert ["prod", "eu"][1..] == ["eu"];
    assert Join(["eu"], " ") == "eu";
  }

  /** The demo request names its branch and its stack "initech/demo/dev". */
  lemma DemoNames()
    ensures Branch(Environment(None, None), DemoInput(None)) == "initech/demo/dev"
    ensures forall destroy, envs :: StackName(Environment(None, None), Qualified, DemoInput(destroy).(environments := envs)) == "initech/demo/dev"
  {
  }
}

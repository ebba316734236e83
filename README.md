# Deployment orchestration of the Pulumi service catalog, in Dafny

The service catalog lets a user start an infrastructure deployment from a web
page. The page posts to `POST /api/execute`, which starts a workflow execution
of the deployment state machine; the state machine invokes the deployment
handler with the request and a task token. The handler:

1. derives the stack's branch name `org/project/stack` (`stack` defaulting to
   `dev`, `org` to `initech`) and, on create/update, pushes that new branch
   from the requested source branch;
2. builds the pre-run command `pulumi config env add <envs> --stack <stack> --yes`
   when environments are requested, and creates or selects the remote stack;
3. on create/update patches the stack's deployment settings, runs `up` and tags
   the stack `pulumi:sc=true`; on destroy runs `destroy`, removes the stack and
   deletes its branch; every engine event of the run sends a heartbeat;
4. reports success with the operation summary and outputs, or failure with the
   error message cut to 255 characters.

The model records the handler's external calls as a trace of `Action`s. The
outcome of every call (git, the stack provider, the settings endpoint, the
workflow engine) comes from an `Oracle`, so nothing of the I/O has to exist.

- `wrappers.dfy`: `Option`, `Result`, `Outcome`.
- `shell.dfy` (module `Shell`): how `execute` settles.
- `naming.dfy` (module `Naming`): defaults, the branch name, `join`/`split`,
  the pre-run command, the failure-message bound.
- `actions.dfy` (module `Actions`): the actions and counting them in a trace.
- `deployment.dfy` (module `Deployment`): the handler as pure functions
  `DeployRun` and `HandlerRun` from configuration, event and oracle to a trace
  and a result, plus reference schedules of the two paths.
- `deployment_properties.dfy` (module `DeploymentProperties`): the properties
  of those functions.
- `lambda.dfy` (module `DeploymentLambda`): class `Lambda`, one object per
  invocation with a `trace` field; its methods follow the source's awaited
  calls step by step (the pre-run list is pushed in both `Deploy` and
  `PatchDeploymentSettings`, as in the source; the two branches of `deploy`
  after the stack is selected are the methods `DestroyStack` and
  `UpdateStack`, mirrored by `Deployment.DestroyPath` and
  `Deployment.UpdatePath`) and each is proved to produce exactly the trace and
  result that `Deployment` specifies.
- `execute_route.dfy` (module `ExecuteRoute`): the site route that builds the
  workflow input map key by key.

`fullyQualifiedStackName` is a library function whose body is not available;
the model takes it as a parameter `qualify`. Only `DestroyUndoesCreate` and
the three scenario lemmas assume it joins its arguments with slashes (the
scenarios by passing `Naming.Qualified`).

Tagging goes through `execute`, so its failures are caught like the branch
operations'; a failed settings patch or `up` propagates; a rejected success
report turns into a failure report; the handler's own promise rejects only when
the failure report is rejected.

## Model

| member | source | states |
|---|---|---|
| Shell.Execute | deployment-lambda/index.ts:246-265 | `execute` resolves with stdout exactly when there is no process error, and otherwise rejects with the error's message |
| Shell.StderrNeverRejects | deployment-lambda/index.ts:254-263 | output on stderr with no process error still resolves with stdout |
| Shell.StderrIrrelevant | deployment-lambda/index.ts:249-263 | how `execute` settles never depends on stderr |
| Naming.Organization | deployment-lambda/index.ts:27 | the organization is the ORGANIZATION variable when it is set (even to ""), and `initech` otherwise |
| Naming.Qualified | deployment-lambda/index.ts:55 | the name has length of the three components plus two, and consists of the organization, a slash, the project, a slash and the stack, at those positions |
| Naming.BranchName | deployment-lambda/index.ts:55 | the branch is the qualified name of organization, project and the request's stack, or `dev` when it names none |
| Naming.Join | deployment-lambda/index.ts:69 | definition only (no contract): `Array.prototype.join`, the parts in order with the separator between neighbours; its properties are `Naming.JoinLength`, `Naming.JoinConcat` and `Naming.SplitJoin` |
| Naming.JoinLength | deployment-lambda/index.ts:69 | a join is as long as its parts together plus one separator between each pair of neighbours |
| Naming.QualifiedInjective | deployment-lambda/index.ts:55 | for slash-free organization and project, `org/project/stack` names are equal exactly when all three components are |
| Naming.SlashesBreakUniqueness | deployment-lambda/index.ts:55 | with a slash in a component two different identities share a branch name |
| Naming.JoinConcat | deployment-lambda/index.ts:69 | joining two non-empty lists puts exactly one separator between their joins |
| Naming.SplitJoin | deployment-lambda/index.ts:69 | splitting the space-joined environment names on the separator gives back exactly the list, in order, when none contains the separator |
| Naming.PreRunCommands | deployment-lambda/index.ts:67-73 | the pre-run list is empty when environments are undefined or empty, and otherwise is the single `env add` command |
| Naming.EnvAddCommand | deployment-lambda/index.ts:70-72 | definition only (no contract): the `pulumi config env add` text with the space-joined environments and the stack name; what it states is proved by `Naming.EnvAddCommandWords` |
| Naming.EnvAddCommandWords | deployment-lambda/index.ts:69-71 | the command's words are `pulumi config env add`, every environment in order, `--stack`, the stack name and `--yes` |
| Naming.Truncate | deployment-lambda/index.ts:48 | the reported error is a prefix of the message of length min(length, 255) |
| Deployment.EnvVars | deployment-lambda/index.ts:83-86 | the run's environment has exactly `AWS_REGION` = `us-west-2` and `PULUMI_ACCESS_TOKEN` = the variable or "" |
| Deployment.WorkspaceCall | deployment-lambda/index.ts:75-89 | the workspace call names the qualified stack, the request's repository, the stack's branch, the project path or "", that environment and the pre-run list of that stack |
| Deployment.SettingsCall | deployment-lambda/index.ts:148-163 | the settings body names the same stack, repository and branch, the project path as given (possibly absent) as directory, that environment and that pre-run list |
| Deployment.DeployRun | deployment-lambda/index.ts:54-133 | every run starts with the new branch (not on destroy) and the workspace call, and ends right there with that call's error exactly when selecting the stack fails; the remaining promises are the `DeploymentProperties` lemmas |
| Deployment.HandlerRun | deployment-lambda/index.ts:30-52 | the handler's calls extend `deploy`'s by one or two reports, and when its promise rejects it does so with the failure report's rejection |
| DeploymentProperties.CreatePathOrder | deployment-lambda/index.ts:54-133 | on create/update the trace is a prefix of NewBranch, CreateOrSelectStack, PatchSettings, Up, heartbeats, TagStack; it is all of it exactly on success; a failing call is the last one made; no Destroy, DeleteStack or DeleteBranch |
| DeploymentProperties.DestroyPathOrder | deployment-lambda/index.ts:54-110 | on destroy the trace is a prefix of CreateOrSelectStack, Destroy, heartbeats, DeleteStack, DeleteBranch; all of it exactly on success; a failing call is the last one made; no NewBranch, PatchSettings, Up or TagStack |
| DeploymentProperties.FailuresPropagate | deployment-lambda/index.ts:75-125 | `deploy` throws exactly when createOrSelectStack, the settings patch, `up` or `destroy` fails, with that call's message, and then issues no tagging or deletion |
| DeploymentProperties.CaughtFailuresChangeNothing | deployment-lambda/index.ts:182-244 | the outcomes of newBranch, deleteBranch, deleteStack and tagStack change neither the trace nor the result of `deploy` |
| DeploymentProperties.OutputCopiedFromSummary | deployment-lambda/index.ts:106-131 | on success result and message are the operation summary's; outputs are `{}` on destroy and the stack outputs on update |
| DeploymentProperties.HeartbeatPerEvent | deployment-lambda/index.ts:96-100 | the trace holds one heartbeat per engine event of the run that was started, and none when no run started |
| DeploymentProperties.DestroyHeartbeats | deployment-lambda/index.ts:92-101 | the destroy branch sends exactly one heartbeat per event of `destroy` |
| DeploymentProperties.UpdateHeartbeats | deployment-lambda/index.ts:112-123 | the create/update branch sends exactly one heartbeat per event of `up`, and none when the settings patch fails |
| DeploymentProperties.HeartbeatsUseTaskToken | deployment-lambda/index.ts:118-122 | every heartbeat carries the invocation's task token |
| DeploymentProperties.WorkspaceAgreesWithSettings | deployment-lambda/index.ts:148-163 | the settings body and the workspace call at lines 75-89 agree on stack, repository, branch, environment and pre-run list, and the workspace's project path is the settings' directory or "" |
| DeploymentProperties.DeployNeverReports | deployment-lambda/index.ts:54-133 | `deploy` issues no success or failure report itself |
| DeploymentProperties.HandlerReports | deployment-lambda/index.ts:30-52 | reports follow all of `deploy`'s calls; on success the only further calls are the success report of the summary under the task token and, when that report is rejected, one failure report with the rejection's message cut to 255 characters; on failure the only further call is one failure report with the truncated message; the handler rejects only when the failure report is rejected |
| DeploymentProperties.HandlerSuccessReports | deployment-lambda/index.ts:30-52 | one success report exactly when `deploy` returned, none when it threw |
| DeploymentProperties.HandlerFailureReports | deployment-lambda/index.ts:30-52 | one failure report when `deploy` threw or the success report was rejected, none otherwise |
| DeploymentProperties.FailureReportsBounded | deployment-lambda/index.ts:45-50 | every failure report carries the task token and at most 255 characters |
| DeploymentProperties.BranchIdentifiesStack | deployment-lambda/index.ts:55 | with slash-free organization and projects, two requests get one branch exactly when project and stack (missing = `dev`) agree |
| DeploymentProperties.DestroyUndoesCreate | deployment-lambda/index.ts:58-104 | assuming the slash-joining stack namer, destroy deletes the stack and the branch that the matching create made |
| DeploymentProperties.CreateScenario | deployment-lambda/index.ts:54-133 | the demo request creates branch and stack `initech/demo/dev` from `main`, patches, updates, tags `pulumi:sc=true` and returns the summary |
| DeploymentProperties.DestroyScenario | deployment-lambda/index.ts:91-110 | the demo destroy removes stack and branch `initech/demo/dev` and returns `{}` outputs |
| DeploymentProperties.EnvironmentsScenario | deployment-lambda/index.ts:140-146 | environments `prod`, `eu` give both the workspace and the settings `pulumi config env add prod eu --stack initech/demo/dev --yes` |
| DeploymentLambda.Lambda.Execute | deployment-lambda/index.ts:246-265 | issues the command and settles as `Shell.Execute` says |
| DeploymentLambda.Lambda.NewBranch | deployment-lambda/index.ts:182-202 | issues one NewBranch and nothing else, whatever its outcome |
| DeploymentLambda.Lambda.DeleteBranch | deployment-lambda/index.ts:204-220 | issues one DeleteBranch and nothing else, whatever its outcome |
| DeploymentLambda.Lambda.DeleteStack | deployment-lambda/index.ts:222-229 | issues one DeleteStack and nothing else, whatever its outcome |
| DeploymentLambda.Lambda.TagStack | deployment-lambda/index.ts:231-244 | issues one TagStack and nothing else, whatever its outcome |
| DeploymentLambda.Lambda.CreateOrSelectStack | deployment-lambda/index.ts:75-89 | issues the workspace call with its arguments and settles as the provider does |
| DeploymentLambda.Lambda.PatchDeploymentSettings | deployment-lambda/index.ts:135-180 | issues the settings patch with repository, directory, branch, environment variables and a pre-run list built independently but equal to the one the workspace gets |
| DeploymentLambda.Lambda.RunOperation | deployment-lambda/index.ts:92-101 | issues the operation and then one heartbeat per engine event, and settles as the operation does |
| DeploymentLambda.Lambda.Deploy | deployment-lambda/index.ts:54-133 | the calls issued and the value returned or thrown are exactly `Deployment.DeployRun`'s |
| DeploymentLambda.Lambda.DestroyStack | deployment-lambda/index.ts:91-110 | the destroy branch issues exactly `Deployment.DestroyPath`'s calls: destroy with its heartbeats, then on success remove the stack and delete its branch, returning the summary with `{}` outputs |
| DeploymentLambda.Lambda.UpdateStack | deployment-lambda/index.ts:111-132 | the create/update branch issues exactly `Deployment.UpdatePath`'s calls: the settings patch, `up` with its heartbeats, the tag, returning the summary and the stack outputs |
| DeploymentLambda.Lambda.SendTaskSuccess | deployment-lambda/index.ts:37-42 | issues the success report with the output |
| DeploymentLambda.Lambda.SendTaskFailure | deployment-lambda/index.ts:45-50 | issues the failure report with the given error |
| DeploymentLambda.Lambda.Handler | deployment-lambda/index.ts:30-52 | the calls issued and how the handler settles are exactly `Deployment.HandlerRun`'s |
| ExecuteRoute.WorkflowInput | site/src/routes/api/execute/+server.ts:12-30 | repository and project copied; branch is the request's unless undefined (a `null` stays `null`), then `refs/heads/main`; `projectPath` and `environments` present exactly when defined, holding the request's value or `null`; keys within the five forwarded ones, never `stack` or `destroy` |
| ExecuteRoute.BuildInputJson | site/src/routes/api/execute/+server.ts:12-30 | the object built one assignment at a time, including the first `??` value of `branch` that is later overwritten, is exactly `WorkflowInput` |
| ExecuteRoute.InitialBranchOverwritten | site/src/routes/api/execute/+server.ts:14-26 | the `/refs/heads/main` set first survives only when the request itself names that branch |
| ExecuteRoute.Post | site/src/routes/api/execute/+server.ts:8-45 | starts an execution of the deployment state machine named by the given UUID with the built input, and answers 200 with the start's result or 500 when the start fails |

## Left out

- Logging (`console.log`, `console.error`, `onOutput`) is not modelled. Note that `execute` rejects with the bare message string, so the four wrappers' `(e as Error).message` logs `undefined`; this affects only the log.
- The shell command texts of the branch and stack operations (clone, checkout, push, `stack rm`, `stack tag set`), the uuid temporary directories and their cleanup: each wrapper is one action whose outcome comes from the oracle.
- The HTTP details of the settings patch (URL, headers, body serialisation, parsing the response): the patch is one action carrying its body's fields, and the oracle says whether `fetch`/`res.json()` rejected.
- Heartbeats are fire-and-forget promises; the model issues them in order during the run, and the failure of a heartbeat (an unhandled rejection) is not modelled.
- `JSON.stringify` of the success output and of the workflow input: the actions carry the structured values.
- In the handler's input, JSON `null` is not distinguished from `undefined` (`Option`); every use there (`??`, truthiness) treats them alike except the settings body's `repoDir`.
- The site route takes `repository_url` and `project` as present strings, as the request type declares them.
- Strings are sequences of characters; UTF-16 code units of `substring` are not modelled.
- Time limits (the engine's heartbeat timeout, the 900-second execution ceiling) and concurrency across invocations.
- `fullyQualifiedStackName` is an abstract parameter; its slash-joining form is assumed only where stated above.
- `index.ts` (cloud resource declarations), `deployment-lambda/index.js` (an older variant whose organization default is `""` instead of `initech`), `site/src/models.ts` (types only, used for the datatypes), `site/src/routes/+page.server.ts` and the status and stacks routes are not part of this model.

/** The external actions the deployment handler issues, and counting them in a trace. */
module Actions {
  import opened Wrappers

  /** One entry of a stack's output map. */
  datatype OutputValue = OutputValue(value: string, secret: bool)

  /** What `deploy` returns: the operation summary's result and message, and the stack outputs. */
  datatype DeployOutput = DeployOutput(result: string, message: string, outputs: map<string, OutputValue>)

  /** A call the handler makes to git, the stack provider or the workflow engine. */
  datatype Action =
    | NewBranch(repositoryUrl: string, sourceBranch: string, branch: string)
    | CreateOrSelectStack(stackName: string, repositoryUrl: string, branch: string, projectPath: string,
                          envVars: map<string, string>, preRunCommands: seq<string>)
    | PatchSettings(stackName: string, repositoryUrl: string, repoDir: Option<string>, branch: string,
                    preRunCommands: seq<string>, envVars: map<string, string>)
    | Up(stackName: string)
    | Destroy(stackName: string)
    | Heartbeat(taskToken: string)
    | DeleteStack(stackName: string)
    | DeleteBranch(repositoryUrl: string, branch: string)
    | TagStack(stackName: string, tagName: string, tagValue: string)
    | SendTaskSuccess(taskToken: string, output: DeployOutput)
    | SendTaskFailure(taskToken: string, error: string)

  predicate IsHeartbeat(a: Action) { a.Heartbeat? }
  predicate IsSuccessReport(a: Action) { a.SendTaskSuccess? }
  predicate IsFailureReport(a: Action) { a.SendTaskFailure? }

  /** The heartbeats sent for `n` provider events. */
  function Heartbeats(taskToken: string, n: nat): (hs: seq<Action>)
    ensures |hs| == n
    ensures forall k :: 0 <= k < n ==> hs[k] == Heartbeat(taskToken)
  {
    seq(n, _ => Heartbeat(taskToken))
  }

  /** The number of actions in `trace` that satisfy `p`. */
  function Count(trace: seq<Action>, p: Action -> bool): nat {
    if trace == [] then 0
    else Count(trace[..|trace| - 1], p) + (if p(trace[|trace| - 1]) then 1 else 0)
  }

  /** Counting distributes over concatenation of traces. */
  lemma {:induction false} CountConcat(a: seq<Action>, b: seq<Action>, p: Action -> bool)
    ensures Count(a + b, p) == Count(a, p) + Count(b, p)
  {
    if b == [] {
      assert a + b == a;
    } else {
      assert (a + b)[..|a + b| - 1] == a + b[..|b| - 1];
      CountConcat(a, b[..|b| - 1], p);
    }
  }

  /** A trace none of whose actions satisfies `p` counts zero, and conversely. */
  lemma {:induction false} CountNone(trace: seq<Action>, p: Action -> bool)
    ensures Count(trace, p) == 0 <==> forall k :: 0 <= k < |trace| ==> !p(trace[k])
  {
    if trace != [] {
      var init := trace[..|trace| - 1];
      CountNone(init, p);
      assert forall k :: 0 <= k < |init| ==> init[k] == trace[k];
    }
  }

  /** `n` heartbeats count as `n` heartbeats, and as nothing else. */
  lemma {:induction false} CountHeartbeats(taskToken: string, n: nat, p: Action -> bool)
    ensures Count(Heartbeats(taskToken, n), p) == if p(Heartbeat(taskToken)) then n else 0
  {
    if n > 0 {
      assert Heartbeats(taskToken, n)[..n - 1] == Heartbeats(taskToken, n - 1);
      CountHeartbeats(taskToken, n - 1, p);
    }
  }
}

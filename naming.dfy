/**
 * The pure string logic of deployment-lambda/index.ts: the organization and
 * stack defaults, the per-stack branch name, the pre-run command built from the
 * requested environments, and the bound on the failure message.
 */
module Naming {
  import opened Wrappers

  /** Used when the ORGANIZATION environment variable is not set. */
  const DefaultOrganization: string := "initech"
  /** Used when the request names no stack. */
  const DefaultStack: string := "dev"
  /** The longest error string reported to the workflow engine. */
  const MaxErrorLength: nat := 255

  /** `process.env.ORGANIZATION ?? "initech"`: an empty value is kept, not defaulted. */
  function Organization(env: Option<string>): (org: string)
    ensures env.Some? ==> org == env.value
    ensures env.None? ==> org == DefaultOrganization
  {
    env.GetOr(DefaultOrganization)
  }

  /** `input.stack ?? "dev"`. */
  function StackOrDefault(stack: Option<string>): string {
    stack.GetOr(DefaultStack)
  }

  /** `${org}/${project}/${stack}`: the three components in order, each followed by a slash but the last. */
  function Qualified(org: string, project: string, stack: string): (name: string)
    ensures |name| == |org| + |project| + |stack| + 2
    ensures name[..|org|] == org && name[|org|] == '/'
    ensures name[|org| + 1..|org| + 1 + |project|] == project && name[|org| + 1 + |project|] == '/'
    ensures name[|org| + 2 + |project|..] == stack
  {
    org + "/" + project + "/" + stack
  }

  /** The name of the dedicated branch of a stack. */
  function BranchName(org: string, project: string, stack: Option<string>): (branch: string)
    ensures stack.None? ==> branch == Qualified(org, project, DefaultStack)
    ensures stack.Some? ==> branch == Qualified(org, project, stack.value)
  {
    Qualified(org, project, StackOrDefault(stack))
  }

  /** The index of the first occurrence of `c` in `s`, or `|s|` when there is none. */
  function Find(s: string, c: char): (i: nat)
    ensures i <= |s|
    ensures i < |s| ==> s[i] == c
  {
    if |s| == 0 then 0
    else if s[0] == c then 0
    else 1 + Find(s[1..], c)
  }

  /** The summed lengths of the parts. */
  function TotalLength(parts: seq<string>): nat {
    if |parts| == 0 then 0 else |parts[0]| + TotalLength(parts[1..])
  }

  /** `Array.prototype.join`: the parts in order, `sep` between neighbours. */
  function Join(parts: seq<string>, sep: string): string {
    if |parts| == 0 then ""
    else if |parts| == 1 then parts[0]
    else parts[0] + sep + Join(parts[1..], sep)
  }

  /** `String.prototype.split` on one character: the pieces between its occurrences. */
  function Split(s: string, c: char): (pieces: seq<string>)
    ensures |pieces| > 0
    decreases |s|
  {
    var i := Find(s, c);
    if i < |s| then [s[..i]] + Split(s[i + 1..], c) else [s]
  }

  /** No `c` comes before the index `Find` returns. */
  lemma {:induction false} FindFirst(s: string, c: char, k: nat)
    requires k < Find(s, c)
    ensures s[k] != c
  {
    if k > 0 {
      FindFirst(s[1..], c, k - 1);
    }
  }

  /** The first `c` of `a + [c] + rest` is the one after `a` when `a` has none. */
  lemma {:induction false} FindAfter(a: string, c: char, rest: string)
    requires c !in a
    ensures Find(a + [c] + rest, c) == |a|
  {
    if |a| > 0 {
      assert (a + [c] + rest)[0] == a[0];
      assert (a + [c] + rest)[1..] == a[1..] + [c] + rest;
      FindAfter(a[1..], c, rest);
    }
  }

  /** Splitting `a + [c] + rest` yields `a` followed by the pieces of `rest`. */
  lemma SplitFirst(a: string, c: char, rest: string)
    requires c !in a
    ensures Split(a + [c] + rest, c) == [a] + Split(rest, c)
  {
    var s := a + [c] + rest;
    FindAfter(a, c, rest);
    assert s[..|a|] == a;
    assert s[|a| + 1..] == rest;
  }

  /** A separator that occurs in neither prefix splits both strings at the same place. */
  lemma SplitAt(a: string, rest: string, b: string, rest': string, c: char)
    requires c !in a && c !in b
    requires a + [c] + rest == b + [c] + rest'
    ensures a == b && rest == rest'
  {
    var s := a + [c] + rest;
    FindAfter(a, c, rest);
    FindAfter(b, c, rest');
    assert a == s[..|a|] && b == s[..|b|];
    assert rest == s[|a| + 1..] && rest' == s[|b| + 1..];
  }

  /**
   * When organization and project contain no slash, the qualified name
   * determines all three of its components, and conversely.
   */
  lemma QualifiedInjective(o1: string, p1: string, s1: string, o2: string, p2: string, s2: string)
    requires '/' !in o1 && '/' !in p1 && '/' !in o2 && '/' !in p2
    ensures Qualified(o1, p1, s1) == Qualified(o2, p2, s2) <==> o1 == o2 && p1 == p2 && s1 == s2
  {
    if Qualified(o1, p1, s1) == Qualified(o2, p2, s2) {
      assert Qualified(o1, p1, s1) == o1 + ['/'] + (p1 + ['/'] + s1);
      assert Qualified(o2, p2, s2) == o2 + ['/'] + (p2 + ['/'] + s2);
      SplitAt(o1, p1 + ['/'] + s1, o2, p2 + ['/'] + s2, '/');
      SplitAt(p1, s1, p2, s2, '/');
    }
  }

  /** Without that restriction two different identities can share one name. */
  lemma SlashesBreakUniqueness()
    ensures Qualified("a/b", "c", "d") == Qualified("a", "b/c", "d")
  {
  }

  /** A join is as long as its parts together, plus one separator between each pair of neighbours. */
  lemma {:induction false} JoinLength(parts: seq<string>, sep: string)
    requires |parts| > 0
    ensures |Join(parts, sep)| == TotalLength(parts) + (|parts| - 1) * |sep|
  {
    if |parts| > 1 {
      JoinLength(parts[1..], sep);
    }
  }

  /** Joining two non-empty lists puts one separator between their joins. */
  lemma {:induction false} JoinConcat(a: seq<string>, b: seq<string>, sep: string)
    requires |a| > 0 && |b| > 0
    ensures Join(a + b, sep) == Join(a, sep) + sep + Join(b, sep)
  {
    if |a| == 1 {
      assert (a + b)[1..] == b;
    } else {
      assert (a + b)[1..] == a[1..] + b;
      JoinConcat(a[1..], b, sep);
    }
  }

  /** A string without the separator is one piece. */
  lemma {:induction false} FindNone(s: string, c: char)
    requires c !in s
    ensures Find(s, c) == |s|
  {
    if |s| > 0 {
      assert s[0] != c;
      assert forall k :: 0 <= k < |s[1..]| ==> s[1..][k] == s[k + 1];
      FindNone(s[1..], c);
    }
  }

  /**
   * Splitting at a separator undoes joining with it, as long as no part
   * contains the separator.
   */
  lemma {:induction false} SplitJoin(parts: seq<string>, c: char)
    requires |parts| > 0
    requires forall k :: 0 <= k < |parts| ==> c !in parts[k]
    ensures Split(Join(parts, [c]), c) == parts
  {
    if |parts| == 1 {
      FindNone(parts[0], c);
    } else {
      var tail := Join(parts[1..], [c]);
      assert Join(parts, [c]) == parts[0] + [c] + tail;
      SplitFirst(parts[0], c, tail);
      forall k | 0 <= k < |parts[1..]| ensures c !in parts[1..][k] {
        assert parts[1..][k] == parts[k + 1];
      }
      SplitJoin(parts[1..], c);
      assert parts == [parts[0]] + parts[1..];
    }
  }

  /** The command that attaches the environments to the stack before a run. */
  function EnvAddCommand(environments: seq<string>, stackName: string): string {
    "pulumi config env add " + Join(environments, " ") + " --stack " + stackName + " --yes"
  }

  /**
   * The pre-run command list: empty when no environments are requested, and
   * otherwise the one command that adds all of them, in order.
   */
  function PreRunCommands(environments: Option<seq<string>>, stackName: string): (commands: seq<string>)
    ensures |commands| <= 1
    ensures commands == [] <==> environments.None? || environments.value == []
    ensures commands != [] ==> commands[0] == EnvAddCommand(environments.value, stackName)
  {
    if environments.Some? && |environments.value| > 0 then
      [EnvAddCommand(environments.value, stackName)]
    else
      []
  }

  /**
   * The words of the command are the CLI verb, every requested environment in
   * order, and the stack it applies to: no environment is lost or split.
   */
  lemma EnvAddCommandWords(environments: seq<string>, stackName: string)
    requires |environments| > 0
    requires forall k :: 0 <= k < |environments| ==> ' ' !in environments[k]
    requires ' ' !in stackName
    ensures Split(EnvAddCommand(environments, stackName), ' ')
         == ["pulumi", "config", "env", "add"] + environments + ["--stack", stackName, "--yes"]
  {
    var words := EnvAddWords(environments, stackName);
    EnvAddCommandJoins(environments, stackName);
    forall k | 0 <= k < |words| ensures ' ' !in words[k] {
      if k >= 4 + |environments| {
        assert words[k] == ["--stack", stackName][k - 4 - |environments|];
      } else if k >= 4 {
        assert words[k] == environments[k - 4];
      }
    }
    assert ' ' !in "--yes";
    JoinConcat(words, ["--yes"], " ");
    SplitJoin(words + ["--yes"], ' ');
  }

  /** The words of the pre-run command before its final `--yes`. */
  function EnvAddWords(environments: seq<string>, stackName: string): seq<string> {
    ["pulumi", "config", "env", "add"] + environments + ["--stack", stackName]
  }

  /** The pre-run command is those words joined by spaces, then ` --yes`. */
  lemma EnvAddCommandJoins(environments: seq<string>, stackName: string)
    requires |environments| > 0
    ensures EnvAddCommand(environments, stackName) == Join(EnvAddWords(environments, stackName), " ") + [' '] + "--yes"
  {
    var verb := ["pulumi", "config", "env", "add"];
    var target := ["--stack", stackName];
    var a := "pulumi config env add";
    var j := Join(environments, " ");
    assert Join(EnvAddWords(environments, stackName), " ") == (a + " " + j) + " " + ("--stack" + " " + stackName) by {
      assert Join(verb, " ") == a by {
        assert verb[1..][1..][1..] == ["add"];
      }
      assert Join(target, " ") == "--stack" + " " + stackName by {
        assert target[1..] == [stackName];
      }
      JoinConcat(verb, environments, " ");
      JoinConcat(verb + environments, target, " ");
    }
    assert EnvAddCommand(environments, stackName) == (a + " ") + j + (" " + "--stack" + " ") + stackName + (" " + "--yes") by {
      assert "pulumi config env add " == a + " ";
      assert " --stack " == " " + "--stack" + " ";
      assert " --yes" == " " + "--yes";
    }
    Reassociate(a, j, "--stack", stackName, "--yes");
  }

  /** Regrouping the pieces of the pre-run command. */
  lemma Reassociate(a: string, j: string, b: string, s: string, y: string)
    ensures (a + " ") + j + (" " + b + " ") + s + (" " + y) == (a + " " + j) + " " + (b + " " + s) + [' '] + y
  {
  }

  /** The failure message reported to the workflow engine: `message.substring(0, 255)`. */
  function Truncate(message: string): (r: string)
    ensures |r| <= MaxErrorLength
    ensures r <= message
    ensures |r| == if |message| < MaxErrorLength then |message| else MaxErrorLength
  {
    if |message| <= MaxErrorLength then message else message[..MaxErrorLength]
  }
}

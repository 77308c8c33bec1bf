/** A version 1 shared build as the first platform's build. */
module SharedBuild {
  import opened Wrappers
  import opened Text
  import opened SecretText
  import opened Plan
  import opened Convert
  import opened GeneratedBehaviour

  // ── The joined command ──────────────────────────────────────────

  lemma SubshellFacts(command: string)
    requires SecretsOnly(command)
    ensures SecretsOnly(Subshell(command))
  {
    hide SecretsOnly;
    if '#' in command || '\n' in command {
      NoDollar("\n)");
      SecretsConcat(command, "\n)");
      BlanksInFront("(\n", command + "\n)");
      assert Subshell(command) == "(\n" + (command + "\n)");
    } else {
      NoDollar(" )");
      SecretsConcat(command, " )");
      BlanksInFront("( ", command + " )");
      assert Subshell(command) == "( " + (command + " )");
    }
  }

  lemma SubshellEnds(command: string)
    ensures Subshell(command) != [] && Subshell(command)[0] == '(' && Subshell(command)[|Subshell(command)| - 1] == ')'
  {
  }

  lemma JoinedSecret(commands: seq<string>)
    requires SecretTexts(commands)
    ensures SecretsOnly(JoinShared(commands))
  {
    hide SecretsOnly, Subshell, Join, Trim;
    forall i | 0 <= i < |commands|
      ensures SecretsOnly(Trim(commands[i])) && SecretsOnly(Subshell(Trim(commands[i])))
    {
      SecretsTrim(commands[i]);
      SubshellFacts(Trim(commands[i]));
    }
    JoinedSecrets(Subshells(commands), " &&\n");
  }

  lemma {:induction false} JoinEnds(texts: seq<string>, separator: string)
    requires texts != [] && forall i :: 0 <= i < |texts| ==> texts[i] != []
    ensures
      var joined := Join(texts, separator);
      var last := texts[|texts| - 1];
      joined != [] && joined[0] == texts[0][0] && joined[|joined| - 1] == last[|last| - 1]
  {
    if |texts| > 1 {
      JoinEnds(texts[1..], separator);
      var rest := Join(texts[1..], separator);
      var joined := texts[0] + separator + rest;
      assert joined[|joined| - 1] == rest[|rest| - 1];
    }
  }

  lemma ParensAreNoBlanks()
    ensures !IsSpace('(') && !IsSpace(')')
  {
  }

  lemma ManyAreTrimmed(commands: seq<string>)
    requires |commands| > 1
    ensures Trim(JoinShared(commands)) == JoinShared(commands) != []
  {
    hide Subshell, Join, Trim, IsSpace;
    var parts := Subshells(commands);
    forall i | 0 <= i < |parts|
      ensures parts[i] != [] && parts[i][0] == '(' && parts[i][|parts[i]| - 1] == ')'
    {
      SubshellEnds(Trim(commands[i]));
    }
    JoinEnds(parts, " &&\n");
    ParensAreNoBlanks();
    TrimTrimmed(JoinShared(commands));
  }

  /** The joined command has no blanks around it. */
  lemma SharedIsTrimmed(commands: seq<string>)
    requires commands != []
    ensures Trim(JoinShared(commands)) == JoinShared(commands)
    ensures !IsBlank(commands[0]) ==> !IsBlank(JoinShared(commands))
  {
    hide Subshells, Join, Trim;
    if |commands| == 1 {
      TrimTwice(commands[0]);
    } else {
      ManyAreTrimmed(commands);
    }
  }

  /** Joining what ran is joining what was written. */
  lemma JoinedOfTrimmed(commands: seq<string>)
    ensures JoinShared(TrimAll(commands)) == JoinShared(commands)
  {
    hide Subshell, Trim;
    var trimmed := TrimAll(commands);
    forall i | 0 <= i < |commands|
      ensures Trim(trimmed[i]) == Trim(commands[i])
    {
      TrimTwice(commands[i]);
    }
    assert Subshells(trimmed) == Subshells(commands);
  }

  // ── The expected steps ──────────────────────────────────────────

  function BuildRuns(steps: seq<StepBehaviour>): seq<string> {
    if steps == [] then []
    else (if steps[0].phase.Build? then [steps[0].run] else []) + BuildRuns(steps[1..])
  }

  function NotBuilds(steps: seq<StepBehaviour>): seq<StepBehaviour> {
    if steps == [] then []
    else (if steps[0].phase.Build? then [] else [steps[0]]) + NotBuilds(steps[1..])
  }

  /** Where the first build stands, or the end. */
  function FirstBuild(steps: seq<StepBehaviour>): (k: nat)
    ensures k <= |NotBuilds(steps)|
  {
    if steps == [] || steps[0].phase.Build? then 0 else 1 + FirstBuild(steps[1..])
  }

  function OneBuildSteps(steps: seq<StepBehaviour>, platform: Platform): seq<StepBehaviour> {
    var others, first := NotBuilds(steps), FirstBuild(steps);
    others[..first] + [StepBehaviour(Build, JoinShared(BuildRuns(steps)), Some(platform))] + others[first..]
  }

  /** The one difference `verify` allows: all builds as one, of the given platform. */
  function OneBuildOf(b: Behaviour, platform: Platform): Behaviour {
    b.(platforms := [platform], steps := OneBuildSteps(b.steps, platform))
  }

  lemma NextStep(steps: seq<StepBehaviour>, i: nat, shared: seq<string>, others: seq<StepBehaviour>)
    requires i < |steps|
    ensures shared + BuildRuns(steps[i..]) == (if steps[i].phase.Build? then shared + [steps[i].run] else shared) + BuildRuns(steps[i + 1..])
    ensures others + NotBuilds(steps[i..]) == (if steps[i].phase.Build? then others else others + [steps[i]]) + NotBuilds(steps[i + 1..])
    ensures FirstBuild(steps[i..]) == if steps[i].phase.Build? then 0 else 1 + FirstBuild(steps[i + 1..])
  {
    assert steps[i..][0] == steps[i] && steps[i..][1..] == steps[i + 1..];
  }

  lemma StepsEnd(steps: seq<StepBehaviour>, shared: seq<string>, others: seq<StepBehaviour>)
    ensures shared + BuildRuns(steps[|steps|..]) == shared && others + NotBuilds(steps[|steps|..]) == others && FirstBuild(steps[|steps|..]) == 0
    ensures [] + BuildRuns(steps[0..]) == BuildRuns(steps) && [] + NotBuilds(steps[0..]) == NotBuilds(steps) && FirstBuild(steps[0..]) == FirstBuild(steps)
  {
    assert steps[0..] == steps;
  }

  /** The edit of the expected steps, in place. */
  method ReplaceBuilds(steps: seq<StepBehaviour>, platform: Platform) returns (r: seq<StepBehaviour>)
    ensures r == OneBuildSteps(steps, platform)
  {
    hide JoinShared, BuildRuns, NotBuilds, FirstBuild;
    var shared, others, first := [], [], 0;
    var found := false;
    StepsEnd(steps, [], []);
    for i := 0 to |steps|
      invariant shared + BuildRuns(steps[i..]) == BuildRuns(steps)
      invariant others + NotBuilds(steps[i..]) == NotBuilds(steps)
      invariant first <= |others|
      invariant FirstBuild(steps) == if found then first else |others| + FirstBuild(steps[i..])
    {
      NextStep(steps, i, shared, others);
      if steps[i].phase.Build? {
        if !found {
          found, first := true, |others|;
        }
        shared := shared + [steps[i].run];
      } else {
        others := others + [steps[i]];
      }
    }
    StepsEnd(steps, shared, others);
    if !found {
      first := |others|;
    }
    r := others[..first] + [StepBehaviour(Build, JoinShared(shared), Some(platform))] + others[first..];
  }

  ghost predicate AllIn(phase: Phase, steps: seq<StepBehaviour>) {
    forall i :: 0 <= i < |steps| ==> steps[i].phase == phase
  }

  lemma {:induction false} NoBuildsFirst(pre: seq<StepBehaviour>, rest: seq<StepBehaviour>)
    requires AllIn(PreBuild, pre)
    ensures BuildRuns(pre + rest) == BuildRuns(rest) && FirstBuild(pre + rest) == |pre| + FirstBuild(rest)
  {
    hide NotBuilds;
    if pre == [] {
      assert pre + rest == rest;
    } else {
      NoBuildsFirst(pre[1..], rest);
      assert (pre + rest)[1..] == pre[1..] + rest;
    }
  }

  lemma {:induction false} KeptFirst(pre: seq<StepBehaviour>, rest: seq<StepBehaviour>)
    requires AllIn(PreBuild, pre)
    ensures NotBuilds(pre + rest) == pre + NotBuilds(rest)
  {
    hide FirstBuild;
    if pre == [] {
      assert pre + rest == rest;
    } else {
      KeptFirst(pre[1..], rest);
      assert (pre + rest)[1..] == pre[1..] + rest;
      assert pre + NotBuilds(rest) == [pre[0]] + (pre[1..] + NotBuilds(rest));
    }
  }

  ghost function RunsOf(steps: seq<StepBehaviour>): (r: seq<string>)
    ensures |r| == |steps| && forall i :: 0 <= i < |r| ==> r[i] == steps[i].run
  {
    seq(|steps|, i requires 0 <= i < |steps| => steps[i].run)
  }

  lemma {:induction false} BuildsOnly(builds: seq<StepBehaviour>, post: seq<StepBehaviour>)
    requires AllIn(Build, builds) && AllIn(PostBuild, post)
    ensures BuildRuns(builds + post) == RunsOf(builds) && NotBuilds(builds + post) == post
    ensures builds != [] ==> FirstBuild(builds + post) == 0
  {
    if builds == [] {
      assert builds + post == post;
      PostOnly(post);
    } else {
      BuildsOnly(builds[1..], post);
      assert (builds + post)[1..] == builds[1..] + post;
      assert RunsOf(builds) == [builds[0].run] + RunsOf(builds[1..]);
    }
  }

  lemma {:induction false} PostOnly(post: seq<StepBehaviour>)
    requires AllIn(PostBuild, post)
    ensures BuildRuns(post) == [] && NotBuilds(post) == post
  {
    if post != [] {
      PostOnly(post[1..]);
      assert post == [post[0]] + post[1..];
    }
  }

  lemma OneBuildInPlace(b: Behaviour, platform: Platform, pre: seq<StepBehaviour>, builds: seq<StepBehaviour>, post: seq<StepBehaviour>)
    requires b.steps == pre + builds + post && builds != []
    requires AllIn(PreBuild, pre) && AllIn(Build, builds) && AllIn(PostBuild, post)
    ensures OneBuildOf(b, platform)
      == b.(platforms := [platform], steps := pre + [StepBehaviour(Build, JoinShared(RunsOf(builds)), Some(platform))] + post)
  {
    hide JoinShared, NotBuilds, BuildRuns, FirstBuild, AllIn;
    assert pre + builds + post == pre + (builds + post);
    NoBuildsFirst(pre, builds + post);
    KeptFirst(pre, builds + post);
    BuildsOnly(builds, post);
    var others := pre + post;
    assert others[..|pre|] == pre && others[|pre|..] == post;
  }
}

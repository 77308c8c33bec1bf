/** The plan of a version 2 file without workflows and flavors, as the form sees it. */
module ImportPlan {
  import opened Wrappers
  import opened Text
  import opened References
  import opened Expansion
  import opened Plan
  import opened Labels
  import opened Lower
  import opened FileChecks
  import Resolver

  // ── Steps by phase ──────────────────────────────────────────────

  /** `steps_in`. */
  function StepsOf(steps: seq<PlanStep>, phase: Phase): seq<PlanStep> {
    if steps == [] then [] else (if steps[0].phase == phase then [steps[0]] else []) + StepsOf(steps[1..], phase)
  }

  function RunsOfSteps(steps: seq<PlanStep>): (r: seq<string>)
    ensures |r| == |steps| && forall i :: 0 <= i < |r| ==> r[i] == steps[i].run
  {
    seq(|steps|, i requires 0 <= i < |steps| => steps[i].run)
  }

  ghost predicate InPhase(steps: seq<PlanStep>, phase: Phase) {
    forall i :: 0 <= i < |steps| ==> steps[i].phase == phase
  }

  lemma StepsOfFirst(steps: seq<PlanStep>, phase: Phase)
    requires steps != []
    ensures StepsOf(steps, phase) == (if steps[0].phase == phase then [steps[0]] else []) + StepsOf(steps[1..], phase)
  {
  }

  lemma NoStepsOf(phase: Phase)
    ensures StepsOf([], phase) == []
  {
  }

  lemma {:induction false} StepsOfConcat(a: seq<PlanStep>, b: seq<PlanStep>, phase: Phase)
    ensures StepsOf(a + b, phase) == StepsOf(a, phase) + StepsOf(b, phase)
  {
    hide StepsOf;
    if a == [] {
      assert a + b == b;
      assert StepsOf(a, phase) == [] by {
        NoStepsOf(phase);
      }
    } else {
      StepsOfConcat(a[1..], b, phase);
      StepsOfFirst(a, phase);
      StepsOfFirst(a + b, phase);
      assert (a + b)[1..] == a[1..] + b;
      var first := if a[0].phase == phase then [a[0]] else [];
      Associative(first, StepsOf(a[1..], phase), StepsOf(b, phase));
    }
  }

  lemma {:induction false} StepsOfOne(steps: seq<PlanStep>, own: Phase, phase: Phase)
    requires InPhase(steps, own)
    ensures StepsOf(steps, phase) == if own == phase then steps else []
  {
    if steps != [] {
      StepsOfOne(steps[1..], own, phase);
      assert steps == [steps[0]] + steps[1..];
    }
  }

  // ── Shape ───────────────────────────────────────────────────────

  /** Steps around the builds: of no platform, without blanks around the command. */
  ghost predicate OtherSteps(steps: seq<PlanStep>, phase: Phase) {
    forall i :: 0 <= i < |steps| ==> steps[i].phase == phase && steps[i].platform.None? && IsTrimmed(steps[i].run)
  }

  /** One build per platform, in order. */
  ghost predicate BuildSteps(steps: seq<PlanStep>, platforms: seq<Platform>) {
    && |steps| == |platforms|
    && forall i :: 0 <= i < |steps| ==> steps[i].phase == Build && steps[i].platform == Some(platforms[i]) && IsTrimmed(steps[i].run)
  }

  ghost predicate FormSteps(steps: seq<PlanStep>, platforms: seq<Platform>, pre: seq<PlanStep>, builds: seq<PlanStep>, post: seq<PlanStep>) {
    && steps == pre + builds + post
    && OtherSteps(pre, PreBuild) && BuildSteps(builds, platforms) && OtherSteps(post, PostBuild)
  }

  /** Valid patterns that hold no reference. */
  ghost predicate AllPatternsGood(patterns: seq<string>) {
    forall i :: 0 <= i < |patterns| ==> !IsBlank(patterns[i]) && !Contains(patterns[i], OPEN) && IsArtifactPattern(patterns[i])
  }

  ghost predicate FormShaped(plan: PipelinePlan, pre: seq<PlanStep>, builds: seq<PlanStep>, post: seq<PlanStep>) {
    && FormSteps(plan.steps, plan.platforms, pre, builds, post)
    && plan.platforms != [] && (forall i, j :: 0 <= i < j < |plan.platforms| ==> plan.platforms[i] != plan.platforms[j])
    && plan.artifacts != [] && AllPatternsGood(plan.artifacts)
    && NormalizeLabels(plan.runsOn) == Some(plan.runsOn)
  }

  lemma StepsByPhase(steps: seq<PlanStep>, platforms: seq<Platform>, pre: seq<PlanStep>, builds: seq<PlanStep>, post: seq<PlanStep>)
    requires FormSteps(steps, platforms, pre, builds, post)
    ensures StepsOf(steps, PreBuild) == pre && StepsOf(steps, Build) == builds && StepsOf(steps, PostBuild) == post
  {
    hide StepsOf, IsTrimmed;
    forall phase: Phase
      ensures StepsOf(steps, phase) == StepsOf(pre, phase) + StepsOf(builds, phase) + StepsOf(post, phase)
    {
      StepsOfConcat(pre + builds, post, phase);
      StepsOfConcat(pre, builds, phase);
    }
    forall phase: Phase
      ensures StepsOf(pre, phase) == (if phase == PreBuild then pre else [])
      ensures StepsOf(builds, phase) == (if phase == Build then builds else [])
      ensures StepsOf(post, phase) == (if phase == PostBuild then post else [])
    {
      StepsOfOne(pre, PreBuild, phase);
      StepsOfOne(builds, Build, phase);
      StepsOfOne(post, PostBuild, phase);
    }
  }

  // ── Every importable file has it ────────────────────────────────

  lemma {:induction false} BuildsAreBuilds(vars: Table, targets: seq<Target>, scopes: seq<Option<string>>)
    requires |scopes| == 1 && AllBuilds(vars, targets, scopes).Some?
    ensures
      var builds := AllBuilds(vars, targets, scopes).value;
      && |builds| == |targets|
      && forall i :: 0 <= i < |builds| ==> builds[i].phase == Build && builds[i].platform == Some(targets[i].platform) && IsTrimmed(builds[i].run)
  {
    hide Resolution, BuildName, Trim, IsTrimmed;
    if targets != [] {
      BuildsAreBuilds(vars, targets[1..], scopes);
      assert TargetBuilds(vars, targets[0], scopes[1..]) == Some([]);
      TrimTrimmed(Resolution(vars, scopes[0], targets[0].build).value);
    }
  }

  lemma AddedStep(vars: Table, before: Around, name: string, run: string) returns (step: PlanStep)
    requires before.Around? && AddStep(vars, before, name, run).Around?
    ensures
      var after := AddStep(vars, before, name, run);
      && after.steps == before.steps + [step] && after.placed == before.placed
      && OtherSteps([step], if before.placed then PostBuild else PreBuild)
  {
    hide Resolution, Trim, IsTrimmed;
    var resolved := Resolution(vars, None, run).value;
    TrimTrimmed(resolved);
    step := PlanStep(Trim(name), if before.placed then PostBuild else PreBuild, Trim(resolved), None, None);
  }

  ghost predicate Placed(around: Around, builds: seq<PlanStep>, pre: seq<PlanStep>, post: seq<PlanStep>)
    requires around.Around?
  {
    && around.steps == (if around.placed then pre + builds + post else pre)
    && (!around.placed ==> post == [])
    && OtherSteps(pre, PreBuild) && OtherSteps(post, PostBuild)
  }

  lemma PlacedStep(vars: Table, before: Around, name: string, run: string, builds: seq<PlanStep>, pre: seq<PlanStep>, post: seq<PlanStep>)
    returns (front: seq<PlanStep>, back: seq<PlanStep>)
    requires before.Around? && AddStep(vars, before, name, run).Around? && Placed(before, builds, pre, post)
    ensures Placed(AddStep(vars, before, name, run), builds, front, back)
  {
    hide AddStep, IsTrimmed;
    var step := AddedStep(vars, before, name, run);
    if before.placed {
      front, back := pre, post + [step];
      assert pre + builds + post + [step] == pre + builds + (post + [step]);
    } else {
      front, back := pre + [step], post;
    }
  }

  lemma {:induction false} EntriesPlaced(vars: Table, builds: seq<PlanStep>, shared: seq<StepEntry>, entries: seq<StepEntry>, k: nat)
    returns (pre: seq<PlanStep>, post: seq<PlanStep>)
    requires k <= |entries| && LowerEntries(vars, builds, shared, entries, k).Around?
    ensures Placed(LowerEntries(vars, builds, shared, entries, k), builds, pre, post)
    decreases k
  {
    hide AddStep, FindInline, OtherSteps, NamesOfSteps;
    if k == 0 {
      pre, post := [], [];
      NoOthers();
    } else {
      var before := LowerEntries(vars, builds, shared, entries, k - 1);
      pre, post := EntriesPlaced(vars, builds, shared, entries, k - 1);
      var entry := entries[k - 1];
      if entry.Inline? {
        pre, post := PlacedStep(vars, before, entry.name, entry.run, builds, pre, post);
      } else if entry.Ref? && FindInline(shared, entry.name).Some? && FindInline(shared, entry.name).value.Inline? {
        var step := FindInline(shared, entry.name).value;
        pre, post := PlacedStep(vars, before, step.name, step.run, builds, pre, post);
      } else if entry.BuildHere? && !before.placed {
        assert pre + builds + [] == pre + builds;
      }
    }
  }

  lemma NoOthers()
    ensures OtherSteps([], PreBuild) && OtherSteps([], PostBuild)
  {
  }

  lemma StepsPlaced(vars: Table, builds: seq<PlanStep>, shared: seq<StepEntry>, entries: seq<StepEntry>) returns (pre: seq<PlanStep>, post: seq<PlanStep>)
    requires LowerSteps(vars, builds, shared, entries).Some?
    ensures LowerSteps(vars, builds, shared, entries).value == pre + builds + post
    ensures OtherSteps(pre, PreBuild) && OtherSteps(post, PostBuild)
  {
    hide LowerEntries, OtherSteps;
    pre, post := EntriesPlaced(vars, builds, shared, entries, |entries|);
    assert pre + builds == pre + builds + [];
  }

  // ── Artifacts ───────────────────────────────────────────────────

  lemma LoweredPattern(vars: Table, pattern: string, scope: Option<string>)
    requires LowerPattern(vars, pattern, scope).Some?
    ensures
      var lowered := LowerPattern(vars, pattern, scope).value;
      !IsBlank(lowered) && !Contains(lowered, OPEN) && IsArtifactPattern(lowered)
  {
    hide Resolution, Trim, Contains, Split, Size;
  }

  lemma {:induction false} PatternsGood(vars: Table, patterns: seq<string>, scopes: seq<Option<string>>)
    requires |scopes| == 1 && LowerPatterns(vars, patterns, scopes).Some?
    ensures |LowerPatterns(vars, patterns, scopes).value| == |patterns| && AllPatternsGood(LowerPatterns(vars, patterns, scopes).value)
  {
    hide LowerPattern, IsBlank, Contains, IsArtifactPattern;
    if patterns != [] {
      PatternsGood(vars, patterns[1..], scopes);
      assert LowerScoped(vars, patterns[0], scopes[1..]) == Some([]);
      LoweredPattern(vars, patterns[0], scopes[0]);
    }
  }

  lemma {:induction false} TargetPatterns(vars: Table, targets: seq<Target>, scopes: seq<Option<string>>)
    requires |scopes| == 1 && AllPatterns(vars, targets, scopes).Some?
    ensures AllPatternsGood(AllPatterns(vars, targets, scopes).value)
    ensures targets != [] && PatternsOf(targets[0]) != [] ==> AllPatterns(vars, targets, scopes).value != []
  {
    hide LowerPatterns, PatternsOf, IsBlank, Contains, IsArtifactPattern;
    if targets != [] {
      PatternsGood(vars, PatternsOf(targets[0]), scopes);
      TargetPatterns(vars, targets[1..], scopes);
    }
  }

  // ── Targets ─────────────────────────────────────────────────────

  lemma {:induction false} TopTargetsKept(targets: seq<PlatformTarget>)
    requires forall i :: 0 <= i < |targets| ==> TargetOk(targets[i].spec)
    ensures |TopTargets(targets)| == |targets|
    ensures forall i :: 0 <= i < |targets| ==>
      TopTargets(targets)[i].platform == targets[i].platform && TopTargets(targets)[i].artifacts == targets[i].spec.artifacts
  {
    hide IsBlank;
    if targets != [] {
      TopTargetsKept(targets[1..]);
      assert TargetOk(targets[0].spec);
    }
  }

  lemma DefaultsListed(platform: Platform)
    ensures DefaultArtifacts(platform) != []
  {
    hide DefaultArtifacts, Join;
    assert |DefaultArtifacts(platform)| == |DefaultSegments(platform)|;
  }

  predicate FormFile(c: Config) {
    c.workflows == [] && c.vars == [] && c.flavors == []
  }

  /** The plan of every valid file that the form might hold. */
  lemma FileIsFormShaped(c: Config) returns (pre: seq<PlanStep>, builds: seq<PlanStep>, post: seq<PlanStep>)
    requires FormFile(c) && FileOk(c)
    ensures FormShaped(LowerConfig(c, None, None).value, pre, builds, post)
  {
    hide AllBuilds, LowerSteps, LowerEnv, AllPatterns, NormalizeLabels, Unique, TopTargets, Resolver.TableFor, Trim, SizeOk, StepsOk,
      KeysOk, TriggersOk, TargetOk, OtherSteps, IsTrimmed, EntriesOf, Resolution, AllPatternsGood;
    var vars, targets, scopes := Resolver.TableFor([]), TopTargets(c.targets), Scopes([]);
    TopTargetsKept(c.targets);
    BuildsAreBuilds(vars, targets, scopes);
    builds := AllBuilds(vars, targets, scopes).value;
    pre, post := StepsPlaced(vars, builds, if c.steps.Some? then c.steps.value else [], EntriesOf(c, NoWorkflow));
    FirstHasPatterns(targets[0], c.targets[0].spec);
    TargetPatterns(vars, targets, scopes);
    var all := AllPatterns(vars, targets, scopes).value;
    UniqueGood(all);
    NormalizedLabels(c.runsOn);
  }

  lemma FirstHasPatterns(target: Target, spec: TargetSpec)
    requires TargetOk(spec) && target.artifacts == spec.artifacts
    ensures PatternsOf(target) != []
  {
    hide DefaultArtifacts, IsBlank;
    DefaultsListed(target.platform);
  }

  lemma UniqueGood(patterns: seq<string>)
    requires AllPatternsGood(patterns) && patterns != []
    ensures AllPatternsGood(Unique(patterns)) && Unique(patterns) != []
  {
    hide Unique, IsBlank, Contains, IsArtifactPattern;
    var once := Unique(patterns);
    assert patterns[0] in once;
    forall i | 0 <= i < |once|
      ensures !IsBlank(once[i]) && !Contains(once[i], OPEN) && IsArtifactPattern(once[i])
    {
      assert once[i] in patterns;
    }
  }
}

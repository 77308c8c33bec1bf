/** Reading a plan back into form settings, before the result is checked. */
module ImportDraft {
  import opened Wrappers
  import opened Text
  import opened References
  import opened Plan
  import opened Labels
  import opened Lower
  import opened GeneratedFile
  import opened GeneratedBehaviour
  import opened UserSteps
  import opened Convert
  import opened ExportSteps
  import opened Export
  import opened ImportPlan
  import opened TargetInputs

  // ── Target inputs ───────────────────────────────────────────────

  /** The form's commands and arguments, by platform. */
  datatype Held = Held(commands: PerPlatform<Option<string>>, args: PerPlatform<seq<string>>)

  function InputsOf(held: Held, platform: Platform): Inputs {
    Inputs(For(held.commands, platform), For(held.args, platform))
  }

  function Hold(held: Held, platform: Platform, inputs: Inputs): Held {
    match platform
    case Android => Held(held.commands.(android := inputs.command), held.args.(android := inputs.args))
    case Ios => Held(held.commands.(ios := inputs.command), held.args.(ios := inputs.args))
    case Macos => Held(held.commands.(macos := inputs.command), held.args.(macos := inputs.args))
  }

  lemma HoldOne(held: Held, platform: Platform, inputs: Inputs)
    ensures InputsOf(Hold(held, platform, inputs), platform) == inputs
    ensures forall other: Platform :: other != platform ==> InputsOf(Hold(held, platform, inputs), other) == InputsOf(held, other)
  {
  }

  function NothingHeld(): Held {
    Held(PerPlatform(None, None, None), PerPlatform([], [], []))
  }

  function HeldBy(base: Option<Settings>): Held {
    if base.Some? then Held(base.value.commands, base.value.args) else NothingHeld()
  }

  function BaseInputs(base: Option<Settings>, platform: Platform): Option<Inputs> {
    if base.Some? then Some(InputsOf(HeldBy(base), platform)) else None
  }

  function InputsFor(step: PlanStep, play: bool, base: Option<Settings>): Inputs
    requires step.platform.Some?
  {
    var platform := step.platform.value;
    TargetInputsFor(platform, step.run, play && platform.Android?, BaseInputs(base, platform))
  }

  /** What the form holds after the first `k` builds. */
  function HeldAfter(builds: seq<PlanStep>, k: nat, play: bool, base: Option<Settings>): Held
    requires k <= |builds|
  {
    if k == 0 then HeldBy(base)
    else
      var held, step := HeldAfter(builds, k - 1, play, base), builds[k - 1];
      if step.platform.None? then held else Hold(held, step.platform.value, InputsFor(step, play, base))
  }

  lemma {:induction false} HeldOf(builds: seq<PlanStep>, platforms: seq<Platform>, k: nat, play: bool, base: Option<Settings>)
    requires k <= |builds| && BuildSteps(builds, platforms)
    requires forall i, j :: 0 <= i < j < |platforms| ==> platforms[i] != platforms[j]
    ensures forall i :: 0 <= i < k ==> InputsOf(HeldAfter(builds, k, play, base), platforms[i]) == InputsFor(builds[i], play, base)
    ensures forall other: Platform :: other !in platforms[..k] ==> InputsOf(HeldAfter(builds, k, play, base), other) == InputsOf(HeldBy(base), other)
    decreases k
  {
    hide InputsOf, Hold, InputsFor, HeldBy, IsTrimmed;
    if k > 0 {
      HeldOf(builds, platforms, k - 1, play, base);
      HoldOne(HeldAfter(builds, k - 1, play, base), platforms[k - 1], InputsFor(builds[k - 1], play, base));
      assert platforms[..k] == platforms[..k - 1] + [platforms[k - 1]];
    }
  }

  // ── The other settings ──────────────────────────────────────────

  /** The pipeline's Build commands, if the file still runs them first after the builds. */
  function OwnBuild(base: Option<Settings>, after: seq<string>): (own: seq<string>)
    ensures own <= after
  {
    var build := if base.Some? then NonEmpty(TrimAll(base.value.build)) else [];
    if build <= after then build else []
  }

  function KeptVersion(version: Option<string>, base: Option<Settings>): Option<string> {
    if base.Some? && TrimmedVersion(version) == TrimmedVersion(base.value.flutterVersion) then base.value.flutterVersion else version
  }

  function KeptEnv(env: seq<EnvVar>, base: Option<Settings>): seq<EnvVar> {
    if base.Some? && TrimmedEnv(env) == TrimmedEnv(base.value.env) then base.value.env else env
  }

  function KeptLabels(labels: seq<string>, base: Option<Settings>): seq<string> {
    if base.Some? && NormalizeLabels(labels) == NormalizeLabels(base.value.runsOn) then base.value.runsOn else labels
  }

  function PlainTargets(platforms: seq<Platform>): (targets: seq<BuildTarget>)
    ensures |targets| == |platforms| && forall i :: 0 <= i < |targets| ==> targets[i].platform == platforms[i]
  {
    seq(|platforms|, i requires 0 <= i < |platforms| => BuildTarget(platforms[i], ""))
  }

  /** `default_artifacts`. */
  function PlatformDefaults(platforms: seq<Platform>): seq<string> {
    DefaultsFor(PlainTargets(platforms))
  }

  /** The base's list if it collects the same, else the file's. */
  function KeptArtifacts(patterns: seq<string>, platforms: seq<Platform>, base: Option<Settings>): seq<string> {
    if base.None? then patterns
    else
      var listed := ExportedList(base.value.artifacts);
      if listed == patterns || (listed == [] && patterns == PlatformDefaults(platforms)) then base.value.artifacts else patterns
  }

  /** The settings read from a plan. */
  function DraftSettings(plan: PipelinePlan, play: bool, base: Option<Settings>): Settings {
    var pre, after := RunsOfSteps(StepsOf(plan.steps, PreBuild)), RunsOfSteps(StepsOf(plan.steps, PostBuild));
    var builds := StepsOf(plan.steps, Build);
    var held := HeldAfter(builds, |builds|, play, base);
    var own := OwnBuild(base, after);
    Settings(
      plan.platforms, KeptVersion(plan.flutterVersion, base),
      if pre == [] then [] else pre[1..], own, after[|own|..], held.args, held.commands,
      KeptEnv(plan.env, base), KeptArtifacts(Unique(TrimAll(plan.artifacts)), plan.platforms, base), plan.offset,
      KeptLabels(plan.runsOn, base), plan.isolation)
  }

  // ── They do what the file does ──────────────────────────────────

  lemma OtherRuns(steps: seq<PlanStep>, phase: Phase)
    requires OtherSteps(steps, phase)
    ensures Steps(steps) == Runs(phase, UserCommands(RunsOfSteps(steps)))
  {
    hide Trim, IsTrimmed;
  }

  lemma ExportedIsRendered(s: Settings, platform: Platform, play: bool)
    ensures ExportedBuild(s, platform, play) == Render(platform, InputsOf(Held(s.commands, s.args), platform), play && platform.Android?)
  {
    hide WithArgs, BaseCommand, BundleBase, BundleArgs;
  }

  lemma DraftBuilds(f: Form, builds: seq<PlanStep>, base: Option<Settings>)
    requires BuildSteps(builds, f.settings.platforms)
    requires forall i, j :: 0 <= i < j < |f.settings.platforms| ==> f.settings.platforms[i] != f.settings.platforms[j]
    requires Held(f.settings.commands, f.settings.args) == HeldAfter(builds, |builds|, f.play, base)
    ensures Built(ExportedTargets(f)) == Steps(builds)
  {
    hide Trim, IsTrimmed, ExportedBuild, TargetInputsFor, Render, HeldAfter, InputsOf;
    var platforms := f.settings.platforms;
    HeldOf(builds, platforms, |builds|, f.play, base);
    forall i | 0 <= i < |builds|
      ensures Built(ExportedTargets(f))[i] == Steps(builds)[i]
    {
      ExportedIsRendered(f.settings, platforms[i], f.play);
      InputsMakeBuild(platforms[i], builds[i].run, f.play && platforms[i].Android?, BaseInputs(base, platforms[i]));
      TrimTrimmed(builds[i].run);
    }
  }

  lemma SplitRuns(phase: Phase, own: seq<string>, after: seq<string>)
    requires own <= after
    ensures Runs(phase, UserCommands(own)) + Runs(phase, UserCommands(after[|own|..])) == Runs(phase, UserCommands(after))
  {
    hide Trim;
    var rest := after[|own|..];
    assert after == own + rest;
    assert UserCommands(after) == UserCommands(own) + UserCommands(rest);
    RunsConcat(phase, UserCommands(own), UserCommands(rest));
  }

  lemma FirstRuns(run: string, runs: seq<string>)
    requires runs != [] && runs[0] == run
    ensures UserCommands([run]) + UserCommands(runs[1..]) == UserCommands(runs)
  {
  }

  /** A plan in the form's shape that gets packages first. */
  ghost predicate FormPlan(plan: PipelinePlan, pre: seq<PlanStep>, builds: seq<PlanStep>, post: seq<PlanStep>) {
    FormShaped(plan, pre, builds, post) && pre != [] && pre[0].run == PubGet()
  }

  lemma DraftSteps(plan: PipelinePlan, f: Form, base: Option<Settings>, pre: seq<PlanStep>, builds: seq<PlanStep>, post: seq<PlanStep>)
    requires FormPlan(plan, pre, builds, post) && f.settings == DraftSettings(plan, f.play, base)
    requires NormalizeLabels(f.settings.runsOn).Some?
    ensures Steps(PlanFor(Exported(f)).steps) == Steps(plan.steps)
  {
    hide Steps, Runs, UserCommands, PubGet, PlanFor, Exported, Built, StepsOf, HeldAfter, OwnBuild, KeptVersion, KeptEnv, KeptArtifacts,
      KeptLabels, Unique, NormalizeLabels, OtherSteps, BuildSteps, AllPatternsGood;
    StepsByPhase(plan.steps, plan.platforms, pre, builds, post);
    ExportedSteps(f);
    DraftBuilds(f, builds, base);
    OtherRuns(pre, PreBuild);
    OtherRuns(post, PostBuild);
    FirstRuns(PubGet(), RunsOfSteps(pre));
    SplitRuns(PostBuild, f.settings.build, RunsOfSteps(post));
    StepsConcat(pre + builds, post);
    StepsConcat(pre, builds);
  }

  lemma SameDefaults(targets: seq<BuildTarget>, platforms: seq<Platform>)
    requires |targets| == |platforms| && forall i :: 0 <= i < |targets| ==> targets[i].platform == platforms[i]
    ensures DefaultsFor(targets) == PlatformDefaults(platforms)
  {
    hide Unique, Concat, DefaultArtifacts;
    assert DefaultLists(targets) == DefaultLists(PlainTargets(platforms));
  }

  /** A list of non-blank patterns, each once and trimmed, is exported as it is. */
  lemma ListAsIs(patterns: seq<string>)
    requires Trimmed(patterns) && Distinct(patterns) && [] !in patterns
    ensures ExportedList(patterns) == patterns
  {
    hide Unique, NonEmpty, TrimAll;
    TrimmedKept(patterns);
    NonEmptyKept(patterns);
    DistinctKept(patterns);
  }

  lemma CollectedIsClean(patterns: seq<string>)
    requires patterns != [] && AllPatternsGood(patterns)
    ensures
      var once := Unique(TrimAll(patterns));
      Trimmed(once) && Distinct(once) && [] !in once && once != []
  {
    hide Unique, Trim, Contains;
    var trimmed := TrimAll(patterns);
    forall i | 0 <= i < |patterns|
      ensures Trim(trimmed[i]) == trimmed[i] && trimmed[i] != []
    {
      TrimTwice(patterns[i]);
    }
    UniqueTrimmed(trimmed);
    assert trimmed[0] in Unique(trimmed);
  }

  lemma DraftArtifacts(patterns: seq<string>, platforms: seq<Platform>, base: Option<Settings>, g: Generated)
    requires |g.targets| == |platforms| > 0 && forall i :: 0 <= i < |platforms| ==> g.targets[i].platform == platforms[i]
    requires Trimmed(patterns) && Distinct(patterns) && [] !in patterns && patterns != []
    requires g.artifacts == ExplicitList(ExportedList(KeptArtifacts(patterns, platforms, base)), g.targets)
    ensures Unique(TrimAll(PlanFor(g).artifacts)) == patterns
  {
    hide Unique, TrimAll, ExportedList, DefaultsFor, ExplicitList, PlanFor, Trimmed, Distinct;
    var kept := KeptArtifacts(patterns, platforms, base);
    SameDefaults(g.targets, platforms);
    ListAsIs(patterns);
    ListTrimmed(kept);
    ListKept(g, ExportedList(kept));
  }

  lemma DraftRest(plan: PipelinePlan, f: Form, base: Option<Settings>)
    requires f.settings == DraftSettings(plan, f.play, base) && NormalizeLabels(plan.runsOn) == Some(plan.runsOn)
    ensures NormalizeLabels(f.settings.runsOn) == Some(plan.runsOn)
    ensures
      var b := BehaviourOf(PlanFor(Exported(f)));
      && b.platforms == plan.platforms && b.flutterVersion == TrimmedVersion(plan.flutterVersion) && b.env == TrimmedEnv(plan.env)
      && b.offset == plan.offset && b.runsOn == plan.runsOn && b.isolation == plan.isolation
  {
    hide Steps, TrimmedEnv, Unique, TrimAll, StepsBefore, StepsAfter, BuildNames, StepNameSet, DefaultsFor, NormalizeLabels, EnvOf, StepsIn,
      BuildsOf, Concat, PatternLists, ExplicitList, ExportedList, ExportedBuild, ExportedOn, EnvPairs, StepsOf, HeldAfter, OwnBuild,
      KeptArtifacts;
    var g := Exported(f);
    EnvKept(f.settings.env);
    VersionKept(f.settings.flutterVersion);
    assert PlatformsOf(g) == f.settings.platforms;
  }

  /** Exported again, the settings read from a file do exactly what the file does. */
  lemma DraftBehaviour(plan: PipelinePlan, f: Form, base: Option<Settings>, pre: seq<PlanStep>, builds: seq<PlanStep>, post: seq<PlanStep>)
    requires FormPlan(plan, pre, builds, post) && f.settings == DraftSettings(plan, f.play, base)
    ensures NormalizeLabels(f.settings.runsOn) == Some(plan.runsOn)
    ensures BehaviourOf(PlanFor(Exported(f))) == BehaviourOf(plan)
  {
    hide Steps, TrimmedEnv, TrimmedVersion, Unique, TrimAll, PlanFor, NormalizeLabels, ExplicitList, ExportedList, Exported, DraftSettings,
      FormSteps, AllPatternsGood, PubGet, Trimmed, Distinct;
    DraftRest(plan, f, base);
    DraftSteps(plan, f, base, pre, builds, post);
    CollectedIsClean(plan.artifacts);
    DraftTargets(plan, f, base);
    DraftArtifacts(Unique(TrimAll(plan.artifacts)), plan.platforms, base, Exported(f));
  }

  lemma DraftTargets(plan: PipelinePlan, f: Form, base: Option<Settings>)
    requires f.settings == DraftSettings(plan, f.play, base) && NormalizeLabels(f.settings.runsOn).Some?
    ensures
      var g := Exported(f);
      && |g.targets| == |plan.platforms| && (forall i :: 0 <= i < |g.targets| ==> g.targets[i].platform == plan.platforms[i])
      && g.artifacts == ExplicitList(ExportedList(KeptArtifacts(Unique(TrimAll(plan.artifacts)), plan.platforms, base)), g.targets)
  {
    hide Unique, TrimAll, StepsBefore, StepsAfter, BuildNames, StepNameSet, NormalizeLabels, ExplicitList, ExportedList, ExportedBuild,
      ExportedOn, EnvPairs, StepsOf, HeldAfter, OwnBuild, KeptArtifacts, TrimmedVersion;
  }
}

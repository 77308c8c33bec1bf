/** How importing ends, told from the file's plan and the editor's settings alone. */
module ImportOutcome {
  import opened Wrappers
  import opened Text
  import opened References
  import opened StepNames
  import opened SecretText
  import opened Plan
  import opened Labels
  import opened Lower
  import opened FileChecks
  import opened GeneratedFile
  import opened GeneratedChecks
  import opened GeneratedBehaviour
  import opened UserSteps
  import opened Convert
  import opened ExportSteps
  import opened Export
  import opened ImportPlan
  import opened ImportTexts
  import opened ImportDraft
  import opened Import
  import opened ImportExport
  import opened TargetInputs
  import NameFits
  import Triggers

  // ── What the base leaves behind ─────────────────────────────────

  function PatternsIn(plan: PipelinePlan): seq<string> {
    Unique(TrimAll(plan.artifacts))
  }

  /** The editor's own list collects what the file does, so it is the one kept. */
  predicate KeepsList(plan: PipelinePlan, base: Option<Settings>) {
    base.Some? &&
      var listed := ExportedList(base.value.artifacts);
      listed == PatternsIn(plan) || (listed == [] && PatternsIn(plan) == PlatformDefaults(plan.platforms))
  }

  predicate KeepsBlank(plan: PipelinePlan, base: Option<Settings>) {
    KeepsList(plan, base) && HasBlank(base.value.artifacts)
  }

  /** The editor's own Android inputs make the file's Android build, so they are kept. */
  predicate KeepsAndroid(plan: PipelinePlan, base: Settings) {
    var builds := StepsOf(plan.steps, Build);
    exists i :: 0 <= i < |builds| && builds[i].platform == Some(Android)
      && Trim(Render(Android, InputsOf(Held(base.commands, base.args), Android), true)) == builds[i].run
  }

  /** With Google Play on, kept arguments put a blank before the bundle command. */
  predicate KeepsSeam(plan: PipelinePlan, base: Option<Settings>, play: bool) {
    && play && base.Some? && base.value.commands.android.None? && KeepsAndroid(plan, base.value)
    && Trim(PlatformCommand(base.value, Android)) != PlatformCommand(base.value, Android)
  }

  // ── The file that the form would write ──────────────────────────

  /** Its steps: the file's commands under names of the form's making. */
  function WrittenSteps(plan: PipelinePlan): seq<Step> {
    var pre, after := RunsOfSteps(StepsOf(plan.steps, PreBuild)), RunsOfSteps(StepsOf(plan.steps, PostBuild));
    var names := BuildNames(PlainTargets(plan.platforms));
    var before := StepsBefore(names, true, if pre == [] then [] else pre[1..]);
    before + StepsFor(names + StepNameSet(before), after)
  }

  predicate BuildFits(step: PlanStep, play: bool, base: Option<Settings>) {
    step.platform.Some? ==>
      Size(Render(step.platform.value, InputsFor(step, play, base), play && step.platform.value.Android?)) <= MAX_COMMAND_BYTES
  }

  ghost predicate BuildsFitIn(steps: seq<PlanStep>, play: bool, base: Option<Settings>) {
    forall i :: 0 <= i < |steps| ==> BuildFits(steps[i], play, base)
  }

  /** The file that the form would write stays within the limits. */
  ghost predicate WrittenFits(plan: PipelinePlan, play: bool, base: Option<Settings>, triggers: Option<Triggers.Settings>) {
    && |StepsOf(plan.steps, PreBuild)| + 1 + |StepsOf(plan.steps, PostBuild)| <= MAX_STEPS
    && NameFits.NamesFit(WrittenSteps(plan))
    && BuildsFitIn(StepsOf(plan.steps, Build), play, base)
    && (PatternsIn(plan) == PlatformDefaults(plan.platforms) || |PatternsIn(plan)| <= MAX_ARTIFACT_PATTERNS)
    && (ExportedOn(triggers).Some? ==> TriggersSizeOk(Triggers.SpecOf(ExportedOn(triggers).value)))
  }

  // ── The settings read ───────────────────────────────────────────

  /** Settings read from a plan in the form's shape, with good texts. */
  ghost predicate Reads(plan: PipelinePlan, f: Form, base: Option<Settings>, pre: seq<PlanStep>, builds: seq<PlanStep>, post: seq<PlanStep>) {
    FormPlan(plan, pre, builds, post) && FormTexts(plan) && f.settings == DraftSettings(plan, f.play, base)
  }

  lemma ReadInputs(plan: PipelinePlan, f: Form, base: Option<Settings>, pre: seq<PlanStep>, builds: seq<PlanStep>, post: seq<PlanStep>)
    requires Reads(plan, f, base, pre, builds, post)
    ensures StepsOf(plan.steps, Build) == builds && |builds| == |plan.platforms| && f.settings.platforms == plan.platforms
    ensures forall i :: 0 <= i < |builds| ==> builds[i].platform == Some(plan.platforms[i]) && IsTrimmed(builds[i].run) && GoodRun(builds[i].run)
    ensures forall i :: 0 <= i < |builds| ==>
      InputsOf(Held(f.settings.commands, f.settings.args), plan.platforms[i]) == InputsFor(builds[i], f.play, base)
  {
    hide StepsOf, HeldAfter, OtherSteps, IsTrimmed, AllPatternsGood, NormalizeLabels, GoodRun, GoodEnv, OffsetOk, PubGet, OwnBuild,
      KeptVersion, KeptEnv, KeptArtifacts, KeptLabels, Unique, TrimAll, InputsFor, InputsOf;
    StepsByPhase(plan.steps, plan.platforms, pre, builds, post);
    HeldOf(builds, plan.platforms, |builds|, f.play, base);
    forall i | 0 <= i < |builds|
      ensures GoodRun(builds[i].run)
    {
      assert plan.steps[|pre| + i] == builds[i];
    }
  }

  // ── The seam ────────────────────────────────────────────────────

  lemma NotKept(platform: Platform, build: string, play: bool, base: Option<Inputs>)
    requires base.Some? ==> Trim(Render(platform, base.value, play)) != build
    ensures TargetInputsFor(platform, build, play, base) == TargetInputsFor(platform, build, play, None)
  {
    hide Render, ArgsFrom, Trim;
  }

  lemma SameCommand(s: Settings, t: Settings, platform: Platform)
    requires InputsOf(Held(s.commands, s.args), platform) == InputsOf(Held(t.commands, t.args), platform)
    ensures PlatformCommand(s, platform) == PlatformCommand(t, platform) && For(s.commands, platform) == For(t.commands, platform)
  {
    hide WithArgs, BaseCommand;
  }

  /** At the file's Android build: the seam is bad exactly if the base's inputs are kept and
      end in a blank. */
  lemma SeamAt(f: Form, base: Option<Settings>, step: PlanStep)
    requires f.play && step.platform == Some(Android)
    requires InputsOf(Held(f.settings.commands, f.settings.args), Android) == InputsFor(step, true, base)
    ensures
      (f.settings.commands.android.None? && Trim(PlatformCommand(f.settings, Android)) != PlatformCommand(f.settings, Android)) <==>
      (&& base.Some? && base.value.commands.android.None?
       && Trim(Render(Android, InputsOf(Held(base.value.commands, base.value.args), Android), true)) == step.run
       && Trim(PlatformCommand(base.value, Android)) != PlatformCommand(base.value, Android))
  {
    hide PlatformCommand, Render, Trim, ArgsFrom, InputsOf, TargetInputsFor;
    var own := BaseInputs(base, Android);
    assert f.settings.commands.android == For(f.settings.commands, Android);
    if own.Some? && Trim(Render(Android, own.value, true)) == step.run {
      Kept(Android, step.run, true, own.value);
      SameCommand(f.settings, base.value, Android);
    } else {
      NotKept(Android, step.run, true, own);
      if f.settings.commands.android.None? {
        ReadArgsTrimmed(Android, step.run, true, f.settings);
      }
    }
  }

  lemma Kept(platform: Platform, build: string, play: bool, base: Inputs)
    requires Trim(Render(platform, base, play)) == build
    ensures TargetInputsFor(platform, build, play, Some(base)) == base
  {
    hide Render, ArgsFrom, Trim;
  }

  lemma ReadSeam(plan: PipelinePlan, f: Form, base: Option<Settings>, pre: seq<PlanStep>, builds: seq<PlanStep>, post: seq<PlanStep>)
    requires Reads(plan, f, base, pre, builds, post)
    ensures BadSeam(f) <==> KeepsSeam(plan, base, f.play)
  {
    hide Reads, StepsOf, PlatformCommand, Trim, Render, InputsOf, GoodRun, IsTrimmed, TargetInputsFor;
    ReadInputs(plan, f, base, pre, builds, post);
    if f.play {
      if Android in plan.platforms {
        var i :| 0 <= i < |plan.platforms| && plan.platforms[i] == Android;
        SeamAt(f, base, builds[i]);
        forall j | 0 <= j < |builds| && builds[j].platform == Some(Android)
          ensures builds[j] == builds[i]
        {
          OneAndroid(plan, f, base, pre, builds, post, i, j);
        }
      } else {
        assert forall j :: 0 <= j < |builds| ==> plan.platforms[j] in plan.platforms;
      }
    }
  }

  lemma OneAndroid(plan: PipelinePlan, f: Form, base: Option<Settings>, pre: seq<PlanStep>, builds: seq<PlanStep>, post: seq<PlanStep>, i: nat, j: nat)
    requires Reads(plan, f, base, pre, builds, post)
    requires i < |plan.platforms| && j < |plan.platforms| && plan.platforms[i] == plan.platforms[j]
    ensures i == j
  {
    hide FormSteps, FormTexts, DraftSettings, AllPatternsGood, NormalizeLabels, PubGet;
  }

  // ── Artifacts ───────────────────────────────────────────────────

  lemma PatternsClean(plan: PipelinePlan)
    requires plan.artifacts != [] && AllPatternsGood(plan.artifacts)
    ensures NoReferences(PatternsIn(plan)) && !HasBlank(PatternsIn(plan)) && GoodPatterns(PatternsIn(plan)) && PatternsIn(plan) != []
    ensures Trimmed(PatternsIn(plan)) && Distinct(PatternsIn(plan)) && [] !in PatternsIn(plan)
  {
    hide Unique, Contains, Trim, IsArtifactPattern;
    ReadListIsGood(plan.artifacts);
    CollectedIsClean(plan.artifacts);
    var once := PatternsIn(plan);
    forall i | 0 <= i < |once|
      ensures GoodPattern(once[i])
    {
      assert once[i] in TrimAll(plan.artifacts);
      var k :| 0 <= k < |plan.artifacts| && Trim(plan.artifacts[k]) == once[i];
      assert GoodPattern(plan.artifacts[k]);
      TrimmedPattern(plan.artifacts[k]);
    }
  }

  lemma ReadBlank(plan: PipelinePlan, base: Option<Settings>)
    requires plan.artifacts != [] && AllPatternsGood(plan.artifacts)
    ensures HasBlank(KeptArtifacts(PatternsIn(plan), plan.platforms, base)) <==> KeepsBlank(plan, base)
  {
    hide PatternsIn, ExportedList, PlatformDefaults, HasBlank, AllPatternsGood;
    PatternsClean(plan);
  }

  /** A reference reaches into no blank, so trimming keeps it. */
  lemma ReferenceInside(text: string, k: int) returns (j: int)
    requires OccursAt(text, OPEN, k)
    ensures OccursAt(Trim(text), OPEN, j)
  {
    hide TrimStart, TrimEnd, IsSpace;
    var inner := TrimStart(text);
    TrimStartIs(text);
    TrimEndIs(inner);
    var lead := |text| - |inner|;
    MarksAreNoBlanks();
    assert text[k] == text[k..k + 3][0] == OPEN[0] && text[k + 2] == text[k..k + 3][2] == OPEN[2];
    j := k - lead;
    assert text[k + 2] == inner[j + 2];
    assert Trim(text)[j..j + 3] == text[k..k + 3];
  }

  lemma TrimKeepsReference(text: string)
    requires !Contains(Trim(text), OPEN)
    ensures !Contains(text, OPEN)
  {
    hide FindFrom, Trim, OccursAt;
    if Contains(text, OPEN) {
      var j := ReferenceInside(text, Find(text, OPEN).value);
      assert false;
    }
  }

  lemma MarksAreNoBlanks()
    ensures !IsSpace(OPEN[0]) && !IsSpace(OPEN[2])
  {
  }

  lemma KeptHasNoReferences(plan: PipelinePlan, base: Option<Settings>)
    requires plan.artifacts != [] && AllPatternsGood(plan.artifacts)
    ensures NoReferences(KeptArtifacts(PatternsIn(plan), plan.platforms, base))
  {
    hide PatternsIn, PlatformDefaults, Contains, AllPatternsGood, Trim, Unique, NonEmpty;
    PatternsClean(plan);
    if KeepsList(plan, base) {
      var own := base.value.artifacts;
      forall i | 0 <= i < |own|
        ensures !Contains(own[i], OPEN)
      {
        var trimmed := TrimAll(own)[i];
        if trimmed == [] {
          NothingContained();
        } else {
          assert trimmed in NonEmpty(TrimAll(own));
          assert trimmed in ExportedList(own);
          assert trimmed in PatternsIn(plan);
          var k :| 0 <= k < |PatternsIn(plan)| && PatternsIn(plan)[k] == trimmed;
        }
        TrimKeepsReference(own[i]);
      }
    }
  }

  lemma NothingContained()
    ensures !Contains([], OPEN)
  {
    hide FindFrom;
  }

  lemma KeptList(plan: PipelinePlan, base: Option<Settings>, targets: seq<BuildTarget>)
    requires plan.artifacts != [] && AllPatternsGood(plan.artifacts)
    requires |targets| == |plan.platforms| && forall i :: 0 <= i < |targets| ==> targets[i].platform == plan.platforms[i]
    ensures ExplicitList(ExportedList(KeptArtifacts(PatternsIn(plan), plan.platforms, base)), targets)
      == if PatternsIn(plan) == PlatformDefaults(plan.platforms) then None else Some(PatternsIn(plan))
  {
    hide PatternsIn, PlatformDefaults, ExportedList, AllPatternsGood, DefaultsFor, Trimmed, Distinct;
    PatternsClean(plan);
    ListAsIs(PatternsIn(plan));
    SameDefaults(targets, plan.platforms);
  }

  // ── It can be written ───────────────────────────────────────────

  lemma ReadExportable(plan: PipelinePlan, f: Form, base: Option<Settings>, pre: seq<PlanStep>, builds: seq<PlanStep>, post: seq<PlanStep>)
    requires Reads(plan, f, base, pre, builds, post)
    ensures Exportable(f) && NormalizeLabels(f.settings.runsOn) == Some(plan.runsOn)
    ensures plan.artifacts != [] && AllPatternsGood(plan.artifacts)
    ensures f.settings.artifacts == KeptArtifacts(PatternsIn(plan), plan.platforms, base)
  {
    hide FormSteps, StepsOf, HeldAfter, AllPatternsGood, NormalizeLabels, FormTexts, PubGet, OwnBuild, KeptVersion, KeptEnv, KeptArtifacts,
      Unique, TrimAll, NoReferences, RunsOfSteps;
    KeptHasNoReferences(plan, base);
  }

  lemma SameBuildNames(targets: seq<BuildTarget>, platforms: seq<Platform>)
    requires |targets| == |platforms| && forall i :: 0 <= i < |targets| ==> targets[i].platform == platforms[i]
    ensures BuildNames(targets) == BuildNames(PlainTargets(platforms))
  {
    hide BuildName;
    var plain := PlainTargets(platforms);
    forall name
      ensures name in BuildNames(targets) <==> name in BuildNames(plain)
    {
      if name in BuildNames(targets) {
        var i :| 0 <= i < |targets| && BuildName(targets[i].platform, None) == name;
        assert BuildName(plain[i].platform, None) == name;
      }
      if name in BuildNames(plain) {
        var i :| 0 <= i < |plain| && BuildName(plain[i].platform, None) == name;
        assert BuildName(targets[i].platform, None) == name;
      }
    }
  }

  /** Naming commands in two runs is naming them in one. */
  lemma {:induction false} StepsForConcat(names: set<string>, a: seq<string>, b: seq<string>)
    ensures StepsFor(names, a + b) == StepsFor(names, a) + StepsFor(names + StepNameSet(StepsFor(names, a)), b)
    decreases |a|
  {
    hide Trim, StepName, UniqueName, StepNameSet, StepsFor;
    if a == [] {
      assert a + b == b;
      NamesOfOne(names, []);
      NoSteps(names, b);
    } else {
      var run := Trim(a[0]);
      var first := Step(UniqueName(names, StepName(run)), run);
      var now := names + {first.name};
      StepsForConcat(now, a[1..], b);
      FirstOf(names, a);
      FirstOf(names, a + b);
      assert (a + b)[1..] == a[1..] + b;
      var rest := StepsFor(now, a[1..]);
      NamesConcat(names, [first], rest);
      NamesOfOne(names, [first]);
      Associative([first], rest, StepsFor(now + StepNameSet(rest), b));
    }
  }

  lemma NoSteps(names: set<string>, b: seq<string>)
    ensures StepsFor(names, []) == [] && [] + StepsFor(names, b) == StepsFor(names, b)
  {
  }

  lemma FirstOf(names: set<string>, commands: seq<string>)
    requires commands != []
    ensures
      var run := Trim(commands[0]);
      var step := Step(UniqueName(names, StepName(run)), run);
      StepsFor(names, commands) == [step] + StepsFor(names + {step.name}, commands[1..])
  {
    hide Trim, StepName, UniqueName;
  }

  lemma ReadSteps(plan: PipelinePlan, f: Form, base: Option<Settings>, pre: seq<PlanStep>, builds: seq<PlanStep>, post: seq<PlanStep>)
    requires Reads(plan, f, base, pre, builds, post) && NormalizeLabels(f.settings.runsOn).Some?
    ensures
      var g := Exported(f);
      && g.before + g.after == WrittenSteps(plan)
      && |g.before| == |pre| && |g.after| == |post|
      && StepsOf(plan.steps, PreBuild) == pre && StepsOf(plan.steps, PostBuild) == post
  {
    hide Reads, StepsOf, StepsFor, BuildNames, StepNameSet, ExportedTargets, ExportedList, ExplicitList, ExportedOn, EnvPairs,
      TrimmedVersion, NormalizeLabels, PubGetStep, RunsOfSteps;
    assert FormSteps(plan.steps, plan.platforms, pre, builds, post) && pre != [] by {
      ReadShape(plan, f, base, pre, builds, post);
    }
    StepsByPhase(plan.steps, plan.platforms, pre, builds, post);
    var own, rest := f.settings.build, f.settings.postBuild;
    assert f.settings.preBuild == RunsOfSteps(pre)[1..] && own + rest == RunsOfSteps(post) && f.settings.platforms == plan.platforms by {
      ReadCommands(plan, f, base, pre, builds, post);
    }
    var g := Exported(f);
    assert BuildNames(g.targets) == BuildNames(PlainTargets(plan.platforms)) by {
      SameBuildNames(ExportedTargets(f), plan.platforms);
    }
    StepsForConcat(BuildNames(g.targets) + StepNameSet(g.before), own, rest);
    Counts(pre, post);
  }

  lemma Counts(pre: seq<PlanStep>, post: seq<PlanStep>)
    ensures |RunsOfSteps(pre)| == |pre| && |RunsOfSteps(post)| == |post|
  {
  }

  lemma ReadShape(plan: PipelinePlan, f: Form, base: Option<Settings>, pre: seq<PlanStep>, builds: seq<PlanStep>, post: seq<PlanStep>)
    requires Reads(plan, f, base, pre, builds, post)
    ensures FormSteps(plan.steps, plan.platforms, pre, builds, post) && pre != [] && GoodRuns(plan.steps) && GoodEnv(plan.env) && OffsetOk(plan.offset)
    ensures plan.platforms != [] && DistinctPlatforms(plan.platforms)
  {
    hide FormSteps, DraftSettings, AllPatternsGood, NormalizeLabels, PubGet, GoodRuns, GoodEnv, OffsetOk;
  }

  lemma ReadCommands(plan: PipelinePlan, f: Form, base: Option<Settings>, pre: seq<PlanStep>, builds: seq<PlanStep>, post: seq<PlanStep>)
    requires Reads(plan, f, base, pre, builds, post)
    ensures pre != [] && f.settings.preBuild == RunsOfSteps(pre)[1..] && f.settings.build + f.settings.postBuild == RunsOfSteps(post)
    ensures f.settings.platforms == plan.platforms
  {
    hide FormSteps, StepsOf, HeldAfter, AllPatternsGood, NormalizeLabels, FormTexts, PubGet, OwnBuild, KeptVersion, KeptEnv, KeptArtifacts,
      KeptLabels, Unique, TrimAll;
    StepsByPhase(plan.steps, plan.platforms, pre, builds, post);
    var own, after := OwnBuild(base, RunsOfSteps(post)), RunsOfSteps(post);
    assert own + after[|own|..] == after;
  }

  // ── Its texts ───────────────────────────────────────────────────

  lemma GoodAround(pre: seq<PlanStep>, builds: seq<PlanStep>, post: seq<PlanStep>)
    requires GoodRuns(pre + builds + post)
    ensures GoodRuns(pre) && GoodRuns(builds) && GoodRuns(post)
  {
    hide GoodRun;
    var all := pre + builds + post;
    assert forall i :: 0 <= i < |pre| ==> all[i] == pre[i];
    assert forall i :: 0 <= i < |builds| ==> all[|pre| + i] == builds[i];
    assert forall i :: 0 <= i < |post| ==> all[|pre| + |builds| + i] == post[i];
  }

  ghost predicate GoodTexts(runs: seq<string>) {
    forall i :: 0 <= i < |runs| ==> GoodRun(runs[i])
  }

  lemma GoodStepsFor(names: set<string>, runs: seq<string>)
    requires GoodTexts(runs)
    ensures SecretSteps(StepsFor(names, runs)) && RunsFit(StepsFor(names, runs))
  {
    hide StepsFor, Trim, SecretsOnly, Size, IsTrimmed;
    StepsForAre(names, runs);
    var steps := StepsFor(names, runs);
    forall i | 0 <= i < |runs|
      ensures SecretsOnly(steps[i].run) && Size(steps[i].run) <= MAX_COMMAND_BYTES && !IsBlank(steps[i].run)
    {
      TrimTrimmed(runs[i]);
      assert GoodRun(runs[i]);
    }
  }

  lemma SecretStepsConcat(a: seq<Step>, b: seq<Step>)
    requires SecretSteps(a) && SecretSteps(b)
    ensures SecretSteps(a + b)
  {
    hide SecretsOnly;
  }

  lemma ReadStepTexts(plan: PipelinePlan, f: Form, base: Option<Settings>, pre: seq<PlanStep>, builds: seq<PlanStep>, post: seq<PlanStep>)
    requires Reads(plan, f, base, pre, builds, post) && NormalizeLabels(f.settings.runsOn).Some?
    ensures SecretSteps(Exported(f).before) && SecretSteps(Exported(f).after) && RunsFit(Exported(f).before + Exported(f).after)
  {
    hide Reads, StepsFor, BuildNames, StepNameSet, ExportedTargets, ExportedList, ExplicitList, ExportedOn, EnvPairs, TrimmedVersion,
      NormalizeLabels, GoodRun, SecretSteps, RunsFit, PubGet, GetPackages, UniqueName;
    assert FormSteps(plan.steps, plan.platforms, pre, builds, post) && GoodRuns(plan.steps) by {
      ReadShape(plan, f, base, pre, builds, post);
    }
    GoodAround(pre, builds, post);
    ReadCommands(plan, f, base, pre, builds, post);
    var s, g := f.settings, Exported(f);
    assert GoodTexts(s.preBuild) && GoodTexts(s.build) && GoodTexts(s.postBuild) by {
      GoodParts(s, pre, post);
    }
    var names := BuildNames(g.targets);
    var first := [PubGetStep(names)];
    var rest := StepsFor(names + StepNameSet(first), s.preBuild);
    PubGetFacts();
    assert SecretSteps(first) && RunsFit(first) by {
      FirstIsSecret(names);
    }
    GoodStepsFor(names + StepNameSet(first), s.preBuild);
    SecretStepsConcat(first, rest);
    RunsFitBoth(first, rest);
    var now := names + StepNameSet(g.before);
    var own := StepsFor(now, s.build);
    GoodStepsFor(now, s.build);
    GoodStepsFor(now + StepNameSet(own), s.postBuild);
    SecretStepsConcat(own, StepsFor(now + StepNameSet(own), s.postBuild));
    RunsFitBoth(own, StepsFor(now + StepNameSet(own), s.postBuild));
    RunsFitBoth(g.before, g.after);
  }

  lemma FirstIsSecret(names: set<string>)
    ensures SecretSteps([PubGetStep(names)]) && RunsFit([PubGetStep(names)])
  {
    hide SecretsOnly, UniqueName, Utf8, PubGet, Trim;
    PubGetFacts();
    PubGetIsTrimmed();
    PubGetIsShort();
  }

  lemma PubGetIsShort()
    ensures Size(PubGet()) <= MAX_COMMAND_BYTES && PubGet() != []
  {
    hide Utf8;
    AsciiSize(PubGet());
  }

  lemma RunsFitBoth(a: seq<Step>, b: seq<Step>)
    requires RunsFit(a) && RunsFit(b)
    ensures RunsFit(a + b)
  {
    hide Size, IsBlank;
  }

  lemma GoodParts(s: Settings, pre: seq<PlanStep>, post: seq<PlanStep>)
    requires GoodRuns(pre) && GoodRuns(post) && pre != []
    requires s.preBuild == RunsOfSteps(pre)[1..] && s.build + s.postBuild == RunsOfSteps(post)
    ensures GoodTexts(s.preBuild) && GoodTexts(s.build) && GoodTexts(s.postBuild)
  {
    hide GoodRun;
    var all := s.build + s.postBuild;
    assert forall i :: 0 <= i < |s.preBuild| ==> s.preBuild[i] == pre[i + 1].run;
    assert forall i :: 0 <= i < |s.build| ==> s.build[i] == all[i] == post[i].run;
    assert forall i :: 0 <= i < |s.postBuild| ==> s.postBuild[i] == all[|s.build| + i] == post[|s.build| + i].run;
  }

  /** The env written is the file's. */
  lemma ReadEnv(env: seq<EnvVar>, base: Option<Settings>)
    requires GoodEnv(env)
    ensures
      var pairs := EnvPairs(KeptEnv(env, base));
      && |pairs| == |env| && KeysOk(pairs)
      && forall i :: 0 <= i < |pairs| ==> SecretsOnly(pairs[i].1)
  {
    hide Trim, SecretsOnly, IsEnvKey, IsTrimmed;
    var kept := KeptEnv(env, base);
    var pairs := EnvPairs(kept);
    assert TrimmedEnv(kept) == TrimmedEnv(env);
    forall i | 0 <= i < |env|
      ensures pairs[i] == (env[i].key, env[i].value)
    {
      assert TrimmedEnv(kept)[i] == TrimmedEnv(env)[i];
      assert GoodEntry(env[i]);
      TrimTrimmed(env[i].key);
      TrimTrimmed(env[i].value);
    }
  }

  lemma ReadBuilds(plan: PipelinePlan, f: Form, base: Option<Settings>, pre: seq<PlanStep>, builds: seq<PlanStep>, post: seq<PlanStep>)
    requires Reads(plan, f, base, pre, builds, post)
    ensures forall i :: 0 <= i < |ExportedTargets(f)| ==> SecretsOnly(ExportedTargets(f)[i].build) && !IsBlank(ExportedTargets(f)[i].build)
    ensures BuildsFit(ExportedTargets(f)) <==> BuildsFitIn(builds, f.play, base)
  {
    hide Reads, SecretsOnly, Trim, Size, ExportedBuild, Render, InputsOf, TargetInputsFor, IsTrimmed, StepsOf;
    ReadInputs(plan, f, base, pre, builds, post);
    var targets := ExportedTargets(f);
    forall i | 0 <= i < |targets|
      ensures SecretsOnly(targets[i].build) && !IsBlank(targets[i].build)
      ensures Size(targets[i].build) <= MAX_COMMAND_BYTES <==> BuildFits(builds[i], f.play, base)
    {
      var platform := plan.platforms[i];
      ExportedIsRendered(f.settings, platform, f.play);
      InputsMakeBuild(platform, builds[i].run, f.play && platform.Android?, BaseInputs(base, platform));
      assert Trim(targets[i].build) == builds[i].run;
      assert GoodRun(builds[i].run);
      SecretsUntrim(targets[i].build);
    }
    if BuildsFit(targets) {
      forall i | 0 <= i < |builds|
        ensures BuildFits(builds[i], f.play, base)
      {
        assert Size(targets[i].build) <= MAX_COMMAND_BYTES;
      }
    }
  }

  lemma ReadPlannable(plan: PipelinePlan, f: Form, base: Option<Settings>, pre: seq<PlanStep>, builds: seq<PlanStep>, post: seq<PlanStep>)
    requires Reads(plan, f, base, pre, builds, post) && NormalizeLabels(f.settings.runsOn).Some?
    ensures Plannable(Exported(f))
  {
    hide Reads, SecretsOnly, SecretSteps, DistinctSteps, ClearOfBuilds, GoodPatterns, NormalizeLabels, StepsBefore, StepsAfter, BuildNames,
      StepNameSet, ExportedBuild, ExportedList, ExportedOn, TrimmedVersion, RunsFit, PatternsIn, AllPatternsGood, GoodEnv, KeptArtifacts,
      KeptEnv, PlatformDefaults, OwnNames, IsBlank, EnvPairs, Exportable;
    var g := Exported(f);
    ReadExportable(plan, f, base, pre, builds, post);
    ReadBuilds(plan, f, base, pre, builds, post);
    ReadStepTexts(plan, f, base, pre, builds, post);
    assert GoodEnv(plan.env) && g.env == EnvPairs(KeptEnv(plan.env, base)) by {
      ReadShape(plan, f, base, pre, builds, post);
      WrittenEnv(plan, f, base, pre, builds, post);
    }
    ReadEnv(plan.env, base);
    PatternsClean(plan);
    assert f.settings.platforms == plan.platforms by {
      ReadCommands(plan, f, base, pre, builds, post);
    }
    KeptList(plan, base, g.targets);
    ExportedNames(f);
    OwnNamesPlannable(g.targets, g.before + g.after);
  }

  lemma WrittenEnv(plan: PipelinePlan, f: Form, base: Option<Settings>, pre: seq<PlanStep>, builds: seq<PlanStep>, post: seq<PlanStep>)
    requires Reads(plan, f, base, pre, builds, post) && NormalizeLabels(f.settings.runsOn).Some?
    ensures Exported(f).env == EnvPairs(KeptEnv(plan.env, base)) && Exported(f).offset == plan.offset
  {
    hide FormPlan, FormTexts, NormalizeLabels, StepsBefore, StepsAfter, BuildNames, StepNameSet, ExportedBuild, ExportedList, ExplicitList,
      ExportedOn, TrimmedVersion, KeptArtifacts, KeptEnv, EnvPairs, StepsOf, HeldAfter, OwnBuild, KeptLabels, Unique, TrimAll;
  }

  // ── Its limits ──────────────────────────────────────────────────

  lemma MappedIsOk(triggers: Triggers.Settings)
    requires Triggers.MapTriggers(triggers).Mapped?
    ensures TriggersOk(Triggers.SpecOf(Triggers.MapTriggers(triggers).on))
  {
    hide Triggers.Cleaned, Triggers.Listed, Triggers.AllClean;
    Triggers.CleanedIsClean(triggers.branches);
    Triggers.CleanedIsClean(triggers.tags);
    Triggers.CleanedIsClean(triggers.paths);
    CleanHasNoBlank(Triggers.Cleaned(triggers.branches));
    CleanHasNoBlank(Triggers.Cleaned(triggers.tags));
    CleanHasNoBlank(Triggers.Cleaned(triggers.paths));
    StarIsNoBlank();
    NothingBlank();
  }

  lemma CleanHasNoBlank(patterns: seq<string>)
    requires Triggers.AllClean(patterns)
    ensures NoBlank(patterns)
  {
    hide Trim, IsTrimmed;
    forall i | 0 <= i < |patterns|
      ensures !IsBlank(patterns[i])
    {
      TrimTrimmed(patterns[i]);
    }
  }

  lemma StarIsNoBlank()
    ensures NoBlank(["*"])
  {
    hide Trim;
    assert !IsSpace('*');
    TrimTrimmed("*");
  }

  lemma WrittenOnOk(triggers: Option<Triggers.Settings>)
    ensures
      var on := WrittenOn(ExportedOn(triggers));
      on.Some? ==> TriggersOk(on.value)
  {
    hide Triggers.MapTriggers, TriggersOk, Triggers.SpecOf;
    if ExportedOn(triggers).Some? {
      MappedIsOk(triggers.value);
    }
  }

  lemma PatternSizes(patterns: seq<string>)
    requires GoodPatterns(patterns) && Trimmed(patterns)
    ensures forall i :: 0 <= i < |patterns| ==> Size(patterns[i]) <= MAX_RAW_PATTERN_BYTES
  {
    hide Trim, Utf8, Split, Contains;
    forall i | 0 <= i < |patterns|
      ensures Size(patterns[i]) <= MAX_RAW_PATTERN_BYTES
    {
      assert GoodPattern(patterns[i]);
    }
  }

  lemma ReadFits(plan: PipelinePlan, f: Form, base: Option<Settings>, pre: seq<PlanStep>, builds: seq<PlanStep>, post: seq<PlanStep>)
    requires Reads(plan, f, base, pre, builds, post) && NormalizeLabels(f.settings.runsOn) == Some(plan.runsOn)
    ensures GeneratedFits(Exported(f)) <==> WrittenFits(plan, f.play, base, f.triggers)
  {
    hide Reads, SecretsOnly, NormalizeLabels, StepsBefore, StepsAfter, BuildNames, StepNameSet, ExportedBuild, ExportedList, ExportedOn,
      TrimmedVersion, RunsFit, PatternsIn, AllPatternsGood, GoodEnv, KeptArtifacts, KeptEnv, PlatformDefaults, IsBlank, EnvPairs,
      Exportable, NameFits.NamesFit, BuildsFit, BuildsFitIn, DistinctTargets, KeysOk, TriggersOk, TriggersSizeOk, OffsetOk, WrittenSteps,
      StepsOf, GoodPatterns, Trimmed, Distinct, Size, ExplicitList, WrittenOn, SecretSteps, GoodRuns;
    var g := Exported(f);
    ReadExportable(plan, f, base, pre, builds, post);
    ReadShape(plan, f, base, pre, builds, post);
    ReadSteps(plan, f, base, pre, builds, post);
    ReadStepTexts(plan, f, base, pre, builds, post);
    ReadInputs(plan, f, base, pre, builds, post);
    ReadBuilds(plan, f, base, pre, builds, post);
    WrittenEnv(plan, f, base, pre, builds, post);
    ReadEnv(plan.env, base);
    assert |plan.env| <= MAX_ENV_ENTRIES by {
      EnvCount(plan.env);
    }
    assert DistinctTargets(g.targets) by {
      DistinctWritten(f, plan.platforms);
    }
    PatternsClean(plan);
    PatternSizes(PatternsIn(plan));
    KeptList(plan, base, g.targets);
    WrittenOnOk(f.triggers);
    OnOfForm(f.triggers);
    assert g.flutter.Some? ==> !IsBlank(g.flutter.value) by {
      VersionKept(f.settings.flutterVersion);
    }
    NormalizedLabels(f.settings.runsOn);
  }

  lemma EnvCount(env: seq<EnvVar>)
    requires GoodEnv(env)
    ensures |env| <= MAX_ENV_ENTRIES
  {
    hide GoodEntry;
  }

  lemma DistinctWritten(f: Form, platforms: seq<Platform>)
    requires f.settings.platforms == platforms && DistinctPlatforms(platforms)
    ensures DistinctTargets(ExportedTargets(f))
  {
    hide ExportedBuild;
  }

  lemma OnOfForm(triggers: Option<Triggers.Settings>)
    ensures WrittenOn(ExportedOn(triggers)) == if ExportedOn(triggers).None? then None else Some(Triggers.SpecOf(ExportedOn(triggers).value))
  {
    hide ExportedOn, Triggers.SpecOf;
  }

  // ── The outcome ─────────────────────────────────────────────────

  /** How importing a file that the form can hold ends. */
  ghost function Outcomes(plan: PipelinePlan, play: bool, base: Option<Settings>, triggers: Option<Triggers.Settings>): Checked {
    if !WrittenFits(plan, play, base, triggers) then CannotExport(InvalidFile)
    else if KeepsBlank(plan, base) || KeepsSeam(plan, base, play) then CannotExport(BuildsDifferently)
    else Same
  }

  /** For every valid file that the form can hold and every editor state: importing fails
      exactly when the file that the form would write is beyond the limits, when the
      editor's list that is kept has a blank pattern, or when its Android arguments that are
      kept put a blank before the Play bundle. */
  lemma ImportOutcome(c: Config, ctx: Context, f: Form)
    requires FormFile(c) && FileOk(c)
    requires
      var plan := LowerConfig(c, None, None).value;
      Holdable(plan, ctx) && f.settings == DraftSettings(plan, ctx.play, ctx.settings) && f.play == ctx.play
    requires FileOn(c).Some? ==> f.triggers.Some? && Triggers.MapTriggers(f.triggers.value) == Triggers.Mapped(FileOn(c).value)
    ensures
      var plan := LowerConfig(c, None, None).value;
      Check(plan, f, FileOn(c)) == Outcomes(plan, ctx.play, ctx.settings, f.triggers)
  {
    hide FormFile, FileOk, LowerConfig, Holdable, DraftSettings, FileOn, Triggers.MapTriggers, Plannable, GeneratedFits, Exported, Check,
      ExportForm, Exportable, BadSeam, HasBlank, NormalizeLabels, WrittenFits, KeepsBlank, KeepsSeam, FormShaped, FormTexts, KeptArtifacts,
      PatternsIn, AllPatternsGood, PlatformDefaults;
    assert LowerConfig(c, None, None).Some? by {
      FileHasPlan(c);
    }
    var plan := LowerConfig(c, None, None).value;
    var pre, builds, post := FileIsFormShaped(c);
    FileHasFormTexts(c);
    assert FormPlan(plan, pre, builds, post) by {
      PackagesFirst(plan, ctx, pre, builds, post);
    }
    ReadExportable(plan, f, ctx.settings, pre, builds, post);
    ReadSeam(plan, f, ctx.settings, pre, builds, post);
    ReadBlank(plan, ctx.settings);
    ReadPlannable(plan, f, ctx.settings, pre, builds, post);
    ReadFits(plan, f, ctx.settings, pre, builds, post);
    ExportOutcome(f);
    ImportNeverDiffers(c, ctx, f);
  }

  /** Read without any settings at hand, a file that the form can hold is held, unless the
      file that the form would write is beyond the limits; none of the reports that ask to
      be reported is ever made. */
  lemma ImportAlone(c: Config, ctx: Context, f: Form)
    requires FormFile(c) && FileOk(c) && ctx.settings.None?
    requires
      var plan := LowerConfig(c, None, None).value;
      Holdable(plan, ctx) && f.settings == DraftSettings(plan, ctx.play, ctx.settings) && f.play == ctx.play
    requires FileOn(c).Some? ==> f.triggers.Some? && Triggers.MapTriggers(f.triggers.value) == Triggers.Mapped(FileOn(c).value)
    ensures
      var plan := LowerConfig(c, None, None).value;
      Check(plan, f, FileOn(c)) == if WrittenFits(plan, ctx.play, None, f.triggers) then Same else CannotExport(InvalidFile)
  {
    hide FormFile, FileOk, LowerConfig, Holdable, DraftSettings, FileOn, Triggers.MapTriggers, Check, WrittenFits, HasBlank, KeepsAndroid,
      PlatformCommand, Trim;
    assert LowerConfig(c, None, None).Some? by {
      FileHasPlan(c);
    }
    ImportOutcome(c, ctx, f);
  }

  lemma FileOnOk(c: Config)
    requires FileOk(c)
    ensures c.on.Some? ==> TriggersOk(c.on.value)
  {
    hide SizeOk, LowerConfig, Resolution, StepsOk, TargetOk, KeysOk, FlavorsOk, TriggersOk, NormalizeLabels;
  }

  /** `import_form_settings` from the parsed file to its own check: nothing unsupported means
      that the settings are the ones read and that the check ends as told. */
  method ImportForm(c: Config, plan: PipelinePlan, ctx: Context)
    returns (problems: seq<Problem>, settings: Settings, triggers: Option<Triggers.Settings>)
    requires FileOk(c) && (FormFile(c) ==> LowerConfig(c, None, None) == Some(plan))
    ensures problems == [] <==> FormFile(c) && Holdable(plan, ctx) && TriggersHeld(c, ctx)
    ensures problems == [] ==> settings == DraftSettings(plan, ctx.play, ctx.settings) && triggers == TriggersRead(c, ctx)
    ensures problems == [] ==>
      var written := if triggers.Some? then triggers else ctx.triggers;
      Check(plan, Form(settings, written, ctx.play), FileOn(c)) == Outcomes(plan, ctx.play, ctx.settings, written)
  {
    hide FileOk, LowerConfig, FormFile, Holdable, DraftSettings, FileOn, Triggers.MapTriggers, Check, Outcomes, TriggersOk, TriggersHeld,
      TriggersRead;
    FileOnOk(c);
    problems, settings, triggers := ReadForm(c, plan, ctx);
    if problems == [] {
      ImportOutcome(c, ctx, Form(settings, if triggers.Some? then triggers else ctx.triggers, ctx.play));
    }
  }
}

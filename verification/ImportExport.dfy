/** Importing an exported file gives the settings back. */
module ImportExport {
  import opened Wrappers
  import opened Text
  import opened References
  import opened StepNames
  import opened Plan
  import opened Labels
  import opened Lower
  import opened FileChecks
  import opened GeneratedFile
  import opened GeneratedChecks
  import opened GeneratedBehaviour
  import opened UserSteps
  import opened Convert
  import opened ExportSteps
  import opened Export
  import opened ImportPlan
  import opened ImportDraft
  import opened Import
  import opened TargetInputs
  import NameFits
  import Triggers

  /** The settings with user commands trimmed, as the file runs them. */
  function TrimmedCommands(s: Settings): Settings {
    s.(preBuild := TrimAll(s.preBuild), build := TrimAll(s.build), postBuild := TrimAll(s.postBuild))
  }

  predicate OneLineEach(commands: seq<string>) {
    forall i :: 0 <= i < |commands| ==> OneLine(Trim(commands[i]))
  }

  predicate OneLineOverride(command: Option<string>) {
    command.Some? ==> OneLine(command.value)
  }

  /** Settings that the form's one-line fields can hold, in the form's order. */
  predicate FormLines(s: Settings) {
    && OneLineEach(s.preBuild) && OneLineEach(s.build) && OneLineEach(s.postBuild)
    && (forall platform :: platform in s.platforms ==> OneLineOverride(For(s.commands, platform)))
    && (forall i :: 0 <= i < |s.env| ==> OneLine(Trim(s.env[i].value)))
    && InFormOrder(s.platforms) == s.platforms
  }

  // ── The exported plan ───────────────────────────────────────────

  lemma StepsAreOthers(phase: Phase, steps: seq<Step>)
    ensures OtherSteps(StepsIn(phase, steps), phase)
  {
    hide Trim, IsTrimmed;
    forall i | 0 <= i < |steps|
      ensures IsTrimmed(StepsIn(phase, steps)[i].run)
    {
      TrimTrimmed(steps[i].run);
    }
  }

  lemma BuildsAreSteps(targets: seq<BuildTarget>, platforms: seq<Platform>)
    requires |targets| == |platforms| && forall i :: 0 <= i < |targets| ==> targets[i].platform == platforms[i]
    ensures BuildSteps(BuildsOf(targets), platforms)
  {
    hide Trim, IsTrimmed, BuildName;
    forall i | 0 <= i < |targets|
      ensures IsTrimmed(BuildsOf(targets)[i].run)
    {
      TrimTrimmed(targets[i].build);
    }
  }

  lemma GeneratedPhases(g: Generated)
    ensures StepsOf(PlanFor(g).steps, PreBuild) == StepsIn(PreBuild, g.before)
    ensures StepsOf(PlanFor(g).steps, Build) == BuildsOf(g.targets)
    ensures StepsOf(PlanFor(g).steps, PostBuild) == StepsIn(PostBuild, g.after)
  {
    hide StepsOf, StepsIn, BuildsOf, OtherSteps, BuildSteps, NormalizeLabels, EnvOf, Unique, Concat, PatternLists;
    var platforms := PlatformsOf(g);
    StepsAreOthers(PreBuild, g.before);
    StepsAreOthers(PostBuild, g.after);
    BuildsAreSteps(g.targets, platforms);
    StepsByPhase(PlanFor(g).steps, platforms, StepsIn(PreBuild, g.before), BuildsOf(g.targets), StepsIn(PostBuild, g.after));
  }

  lemma ExportedPhases(f: Form)
    requires NormalizeLabels(f.settings.runsOn).Some?
    ensures
      var g := Exported(f);
      && StepsOf(PlanFor(g).steps, PreBuild) == StepsIn(PreBuild, g.before)
      && StepsOf(PlanFor(g).steps, Build) == BuildsOf(g.targets)
      && StepsOf(PlanFor(g).steps, PostBuild) == StepsIn(PostBuild, g.after)
  {
    hide StepsOf, StepsIn, BuildsOf, NormalizeLabels, Exported, PlanFor;
    GeneratedPhases(Exported(f));
  }

  lemma RunsOfStepsFor(phase: Phase, names: set<string>, commands: seq<string>)
    ensures RunsOfSteps(StepsIn(phase, StepsFor(names, commands))) == TrimAll(commands)
  {
    hide Trim, StepsFor;
    StepsForAre(names, commands);
    forall i | 0 <= i < |commands|
      ensures RunsOfSteps(StepsIn(phase, StepsFor(names, commands)))[i] == TrimAll(commands)[i]
    {
      TrimTwice(commands[i]);
    }
  }

  lemma RunsOfConcat(phase: Phase, a: seq<Step>, b: seq<Step>)
    ensures RunsOfSteps(StepsIn(phase, a + b)) == RunsOfSteps(StepsIn(phase, a)) + RunsOfSteps(StepsIn(phase, b))
  {
    hide Trim;
  }

  lemma PubGetIsTrimmed()
    ensures Trim(PubGet()) == PubGet()
  {
    hide Trim, IsSpace;
    var command := PubGet();
    assert command[0] == 'f' && command[|command| - 1] == 't';
    LetterIsNoBlank('f');
    LetterIsNoBlank('t');
    TrimTrimmed(command);
  }

  lemma LetterIsNoBlank(c: char)
    requires 'a' <= c <= 'z'
    ensures !IsSpace(c)
  {
  }

  lemma ExportedRuns(f: Form)
    requires NormalizeLabels(f.settings.runsOn).Some?
    ensures
      var g := Exported(f);
      && RunsOfSteps(StepsIn(PreBuild, g.before)) == [PubGet()] + TrimAll(f.settings.preBuild)
      && RunsOfSteps(StepsIn(PostBuild, g.after)) == TrimAll(f.settings.build) + TrimAll(f.settings.postBuild)
  {
    hide NormalizeLabels, StepsFor, BuildNames, StepNameSet, ExplicitList, ExportedList, ExportedTargets, ExportedOn, EnvPairs,
      TrimmedVersion, TrimAll, StepsIn, RunsOfSteps, PubGet, UniqueName, GetPackages;
    var g := Exported(f);
    var s := f.settings;
    var names := BuildNames(g.targets);
    var first := [PubGetStep(names)];
    var rest := StepsFor(names + StepNameSet(first), s.preBuild);
    RunsOfConcat(PreBuild, first, rest);
    RunsOfStepsFor(PreBuild, names + StepNameSet(first), s.preBuild);
    OneRun(names);
    var now := names + StepNameSet(g.before);
    var builds := StepsFor(now, s.build);
    RunsOfConcat(PostBuild, builds, StepsFor(now + StepNameSet(builds), s.postBuild));
    RunsOfStepsFor(PostBuild, now, s.build);
    RunsOfStepsFor(PostBuild, now + StepNameSet(builds), s.postBuild);
  }

  lemma OneRun(names: set<string>)
    ensures RunsOfSteps(StepsIn(PreBuild, [PubGetStep(names)])) == [PubGet()]
  {
    hide UniqueName, GetPackages, PubGet, Trim;
    PubGetIsTrimmed();
  }

  // ── The base's inputs are kept ──────────────────────────────────

  lemma HoldSame(held: Held, platform: Platform)
    ensures Hold(held, platform, InputsOf(held, platform)) == held
  {
  }

  lemma {:induction false} BaseKept(f: Form, k: nat)
    requires k <= |f.settings.platforms|
    ensures HeldAfter(BuildsOf(ExportedTargets(f)), k, f.play, Some(f.settings)) == Held(f.settings.commands, f.settings.args)
    decreases k
  {
    hide Trim, ExportedBuild, Render, BuildName, InputsOf, Hold, ArgsFrom;
    if k > 0 {
      BaseKept(f, k - 1);
      var platform := f.settings.platforms[k - 1];
      ExportedIsRendered(f.settings, platform, f.play);
      HoldSame(Held(f.settings.commands, f.settings.args), platform);
    }
  }

  lemma InputsKept(f: Form, i: nat)
    requires i < |f.settings.platforms|
    ensures InputsFor(BuildsOf(ExportedTargets(f))[i], f.play, Some(f.settings)).command == For(f.settings.commands, f.settings.platforms[i])
  {
    hide Trim, ExportedBuild, Render, BuildName, ArgsFrom;
    ExportedIsRendered(f.settings, f.settings.platforms[i], f.play);
  }

  // ── The settings read back ──────────────────────────────────────

  /** A valid exported file has no blank user command. */
  lemma NoBlankBuild(f: Form)
    requires NormalizeLabels(f.settings.runsOn).Some? && RunsFit(Exported(f).before + Exported(f).after)
    ensures NonEmpty(TrimAll(f.settings.build)) == TrimAll(f.settings.build)
  {
    hide NormalizeLabels, BuildNames, StepNameSet, ExplicitList, ExportedList, ExportedTargets, ExportedOn, EnvPairs, TrimmedVersion, Trim,
      Size, StepsFor, StepsBefore, NonEmpty;
    var g := Exported(f);
    var s := f.settings;
    var now := BuildNames(g.targets) + StepNameSet(g.before);
    var builds := StepsFor(now, s.build);
    StepsForAre(now, s.build);
    forall i | 0 <= i < |s.build|
      ensures TrimAll(s.build)[i] != []
    {
      var k := |g.before| + i;
      assert (g.before + g.after)[k] == g.after[i] == builds[i];
      assert !IsBlank((g.before + g.after)[k].run);
      TrimTwice(s.build[i]);
    }
    NonEmptyKept(TrimAll(s.build));
  }

  lemma OwnBuildIs(base: Settings, rest: seq<string>)
    requires NonEmpty(TrimAll(base.build)) == TrimAll(base.build)
    ensures OwnBuild(Some(base), TrimAll(base.build) + rest) == TrimAll(base.build)
  {
    hide TrimAll, NonEmpty;
  }

  lemma RestKept(f: Form)
    requires Exportable(f)
    ensures
      var plan := PlanFor(Exported(f));
      var s := f.settings;
      && plan.platforms == s.platforms && plan.offset == s.offset && plan.isolation == s.isolation
      && KeptVersion(plan.flutterVersion, Some(s)) == s.flutterVersion && KeptEnv(plan.env, Some(s)) == s.env
      && KeptLabels(plan.runsOn, Some(s)) == s.runsOn
      && plan.env == EnvOf(EnvPairs(s.env))
  {
    hide TrimmedEnv, Unique, TrimAll, StepsBefore, StepsAfter, BuildNames, StepNameSet, DefaultsFor, NormalizeLabels, EnvOf, StepsIn,
      BuildsOf, Concat, PatternLists, ExplicitList, ExportedList, ExportedBuild, ExportedOn, EnvPairs, NoReferences, DistinctPlatforms;
    var g := Exported(f);
    EnvKept(f.settings.env);
    VersionKept(f.settings.flutterVersion);
    NormalizedLabels(f.settings.runsOn);
    assert PlatformsOf(g) == f.settings.platforms;
  }

  lemma ArtifactsKept(f: Form)
    requires Exportable(f)
    ensures KeptArtifacts(Unique(TrimAll(PlanFor(Exported(f)).artifacts)), f.settings.platforms, Some(f.settings)) == f.settings.artifacts
  {
    hide Unique, TrimAll, ExportedList, DefaultsFor, ExplicitList, PlanFor, Trimmed, Distinct, Exported, Exportable, NormalizeLabels,
      ExpectedOfForm, PlatformDefaults;
    var list := ExportedList(f.settings.artifacts);
    assert NormalizeLabels(f.settings.runsOn).Some? by {
      ExportedParts(f);
    }
    var g := Exported(f);
    ExpectedPatterns(f);
    assert |g.targets| == |f.settings.platforms| && (forall i :: 0 <= i < |g.targets| ==> g.targets[i].platform == f.settings.platforms[i]) by {
      TargetPlatforms(f);
    }
    ListTrimmed(f.settings.artifacts);
    ListKept(g, list);
    SameDefaults(g.targets, f.settings.platforms);
  }

  lemma TargetPlatforms(f: Form)
    requires NormalizeLabels(f.settings.runsOn).Some?
    ensures Exported(f).targets == ExportedTargets(f)
  {
    hide NormalizeLabels, StepsBefore, StepsAfter, BuildNames, StepNameSet, ExplicitList, ExportedList, ExportedOn, EnvPairs,
      TrimmedVersion;
  }

  /** Read with the settings at hand, the exported file gives them back up to blanks around
      user commands. */
  lemma DraftOfExport(f: Form)
    requires Exportable(f) && RunsFit(Exported(f).before + Exported(f).after)
    ensures DraftSettings(PlanFor(Exported(f)), f.play, Some(f.settings)) == TrimmedCommands(f.settings)
  {
    hide Exportable, NormalizeLabels, RunsFit, PlanFor, Exported, StepsOf, StepsIn, BuildsOf, RunsOfSteps, TrimAll, PubGet, HeldAfter,
      OwnBuild, KeptVersion, KeptEnv, KeptLabels, KeptArtifacts, Unique, NonEmpty;
    assert NormalizeLabels(f.settings.runsOn).Some? by {
      ExportedParts(f);
    }
    var s := f.settings;
    ExportedPhases(f);
    ExportedRuns(f);
    TargetPlatforms(f);
    BaseKept(f, |s.platforms|);
    NoBlankBuild(f);
    OwnBuildIs(s, TrimAll(s.postBuild));
    RestKept(f);
    ArtifactsKept(f);
    var pre := [PubGet()] + TrimAll(s.preBuild);
    assert pre[1..] == TrimAll(s.preBuild);
    var after := TrimAll(s.build) + TrimAll(s.postBuild);
    assert after[|TrimAll(s.build)|..] == TrimAll(s.postBuild);
    BuildCount(f);
  }

  lemma BuildCount(f: Form)
    ensures |BuildsOf(ExportedTargets(f))| == |f.settings.platforms|
  {
  }

  // ── Nothing is unsupported ──────────────────────────────────────

  lemma StepsHeldConcat(a: seq<PlanStep>, b: seq<PlanStep>)
    requires AllStepsHeld(a) && AllStepsHeld(b)
    ensures AllStepsHeld(a + b)
  {
    hide StepHeld;
  }

  lemma OthersHeld(steps: seq<PlanStep>, runs: seq<string>)
    requires RunsOfSteps(steps) == runs && forall i :: 0 <= i < |runs| ==> OneLine(runs[i])
    ensures AllStepsHeld(steps)
  {
    hide OneLine;
    forall i | 0 <= i < |steps|
      ensures StepHeld(steps[i])
    {
      assert OneLine(runs[i]);
    }
  }

  lemma BuildsHeldAsSteps(targets: seq<BuildTarget>)
    ensures AllStepsHeld(BuildsOf(targets))
  {
    hide Trim, BuildName, OneLine;
  }

  lemma PubGetIsOneLine()
    ensures OneLine(PubGet())
  {
  }

  lemma LinesOf(commands: seq<string>)
    requires OneLineEach(commands)
    ensures forall i :: 0 <= i < |commands| ==> OneLine(TrimAll(commands)[i])
  {
    hide OneLine, Trim;
  }

  lemma ExportedStepsHeld(f: Form)
    requires NormalizeLabels(f.settings.runsOn).Some? && FormLines(f.settings)
    ensures AllStepsHeld(PlanFor(Exported(f)).steps)
  {
    hide NormalizeLabels, OneLine, OneLineEach, Exported, StepsIn, BuildsOf, RunsOfSteps, TrimAll, PubGet, AllStepsHeld, InFormOrder, Trim,
      Unique, Concat, PatternLists, EnvOf;
    var g := Exported(f);
    var s := f.settings;
    ExportedRuns(f);
    PubGetIsOneLine();
    LinesOf(s.preBuild);
    LinesOf(s.build);
    LinesOf(s.postBuild);
    OthersHeld(StepsIn(PreBuild, g.before), [PubGet()] + TrimAll(s.preBuild));
    OthersHeld(StepsIn(PostBuild, g.after), TrimAll(s.build) + TrimAll(s.postBuild));
    BuildsHeldAsSteps(g.targets);
    StepsHeldConcat(StepsIn(PreBuild, g.before), BuildsOf(g.targets));
    StepsHeldConcat(StepsIn(PreBuild, g.before) + BuildsOf(g.targets), StepsIn(PostBuild, g.after));
  }

  lemma ExportedBuildsHeld(f: Form, ctx: Context)
    requires FormLines(f.settings) && ctx.settings == Some(f.settings) && ctx.play == f.play
    ensures AllBuildsHeld(BuildsOf(ExportedTargets(f)), ctx)
  {
    hide OneLine, OneLineEach, InputsFor, Trim, BuildName, ExportedBuild, InFormOrder;
    var builds := BuildsOf(ExportedTargets(f));
    forall i | 0 <= i < |builds|
      ensures BuildHeld(builds[i], ctx)
    {
      InputsKept(f, i);
      assert f.settings.platforms[i] in f.settings.platforms;
      assert OneLineOverride(For(f.settings.commands, f.settings.platforms[i]));
    }
  }

  lemma ExportedEnvHeld(env: seq<EnvVar>)
    requires forall i :: 0 <= i < |env| ==> OneLine(Trim(env[i].value))
    ensures AllEnvHeld(EnvOf(EnvPairs(env)))
  {
    hide OneLine, Trim;
    forall i | 0 <= i < |env|
      ensures EnvHeld(EnvOf(EnvPairs(env))[i])
    {
      TrimTwice(env[i].value);
    }
  }

  lemma ExportedHoldable(f: Form, ctx: Context)
    requires Exportable(f) && FormLines(f.settings) && ctx.settings == Some(f.settings) && ctx.play == f.play
    ensures Holdable(PlanFor(Exported(f)), ctx)
  {
    hide Exportable, NormalizeLabels, PlanFor, Exported, StepsOf, StepsIn, BuildsOf, RunsOfSteps, TrimAll, PubGet, AllStepsHeld,
      AllBuildsHeld, AllEnvHeld, InFormOrder, OneLine, OneLineEach, Trim, KeptVersion, KeptEnv, KeptLabels;
    assert NormalizeLabels(f.settings.runsOn).Some? by {
      ExportedParts(f);
    }
    ExportedPhases(f);
    ExportedRuns(f);
    TargetPlatforms(f);
    ExportedStepsHeld(f);
    ExportedBuildsHeld(f, ctx);
    RestKept(f);
    ExportedEnvHeld(f.settings.env);
  }

  lemma ExportedTriggers(f: Form, ctx: Context, c: Config)
    requires c.on == WrittenOn(ExportedOn(f.triggers)) && ctx.triggers == f.triggers
    requires f.triggers.Some? ==> CommaFree(f.triggers.value)
    ensures SameTriggers(c, ctx) && FileOn(c) == ExportedOn(f.triggers)
  {
    hide Triggers.MapTriggers, CommaFree, NormalizeOn, Triggers.OnOf;
    if ExportedOn(f.triggers).Some? {
      var on := ExportedOn(f.triggers).value;
      OnReadBack(f, on);
      MappedPaths(f.triggers.value);
    }
  }

  lemma MappedPaths(s: Triggers.Settings)
    requires Triggers.MapTriggers(s).Mapped?
    ensures
      var on := Triggers.MapTriggers(s).on;
      on.push.None? && !on.pullRequest ==> on.paths == []
  {
    hide Triggers.Cleaned, Triggers.Listed;
  }

  // ── Exporting the settings read back ────────────────────────────

  lemma {:induction false} TrimmedSteps(names: set<string>, commands: seq<string>)
    ensures StepsFor(names, TrimAll(commands)) == StepsFor(names, commands)
    decreases |commands|
  {
    hide Trim, StepName, UniqueName;
    if commands != [] {
      var name := UniqueName(names, StepName(Trim(commands[0])));
      TrimTwice(commands[0]);
      TrimmedSteps(names + {name}, commands[1..]);
      assert TrimAll(commands)[1..] == TrimAll(commands[1..]);
    }
  }

  lemma SameTargets(f: Form, h: Form)
    requires h == f.(settings := TrimmedCommands(f.settings))
    ensures ExportedTargets(h) == ExportedTargets(f) && (BadSeam(h) <==> BadSeam(f)) && (Exportable(h) <==> Exportable(f))
  {
    hide WithArgs, BaseCommand, BundleBase, BundleArgs, Trim, NormalizeLabels, NoReferences, DistinctPlatforms, TrimAll;
  }

  lemma SameExport(f: Form, h: Form)
    requires h == f.(settings := TrimmedCommands(f.settings)) && NormalizeLabels(f.settings.runsOn).Some?
    ensures Exported(h) == Exported(f)
  {
    hide NormalizeLabels, StepsFor, BuildNames, StepNameSet, ExplicitList, ExportedList, ExportedTargets, ExportedOn, EnvPairs,
      TrimmedVersion, TrimAll, PubGetStep, BadSeam, Exportable;
    SameTargets(f, h);
    var s := f.settings;
    var names := BuildNames(ExportedTargets(f));
    var first := [PubGetStep(names)];
    TrimmedSteps(names + StepNameSet(first), s.preBuild);
    var now := names + StepNameSet(Exported(f).before);
    TrimmedSteps(now, s.build);
    TrimmedSteps(now + StepNameSet(StepsFor(now, s.build)), s.postBuild);
  }

  lemma ExportAgain(f: Form, h: Form)
    requires h == f.(settings := TrimmedCommands(f.settings)) && ExportForm(f).Ok?
    ensures ExportForm(h).Ok?
  {
    hide Exportable, Exported, Plannable, GeneratedFits, ExportForm, BadSeam, HasBlank, NormalizeLabels, TrimmedCommands;
    ExportedOk(f);
    assert NormalizeLabels(f.settings.runsOn).Some? by {
      ExportedParts(f);
    }
    SameTargets(f, h);
    SameExport(f, h);
    ExportOutcome(h);
    assert h.settings.artifacts == f.settings.artifacts by {
      TrimmedArtifacts(f.settings);
    }
  }

  lemma TrimmedArtifacts(s: Settings)
    ensures TrimmedCommands(s).artifacts == s.artifacts
  {
    hide TrimAll;
  }

  /** Importing what was exported, with the settings at hand: nothing is unsupported, the
      same settings come back up to blanks around user commands, and the check passes. */
  lemma ImportUndoesExport(f: Form, ctx: Context)
    requires ExportForm(f).Ok? && FormLines(f.settings) && (f.triggers.Some? ==> CommaFree(f.triggers.value))
    requires ctx == Context(Some(f.settings), f.triggers, f.play)
    ensures
      var c := FileFor(Exported(f));
      var plan := PlanFor(Exported(f));
      && FileOk(c) && LowerConfig(c, None, None) == Some(plan)
      && FormFile(c) && Holdable(plan, ctx)
      && TriggersHeld(c, ctx) && TriggersRead(c, ctx) == (if c.on.None? then None else f.triggers)
      && DraftSettings(plan, ctx.play, ctx.settings) == TrimmedCommands(f.settings)
      && Check(plan, f.(settings := TrimmedCommands(f.settings)), FileOn(c)) == Same
  {
    hide Exportable, Exported, Plannable, GeneratedFits, FileOk, LowerConfig, PlanFor, FileFor, ExportedOn, WrittenOn, ExportForm, BadSeam,
      HasBlank, FormLines, CommaFree, Holdable, SameTriggers, TriggersHeld, TriggersRead, DraftSettings, TrimmedCommands, Check, FileOn, NormalizeLabels,
      Triggers.MapTriggers, RunsFit;
    ExportedOk(f);
    assert NormalizeLabels(f.settings.runsOn).Some? by {
      ExportedParts(f);
    }
    var g := Exported(f);
    var c := FileFor(g);
    assert RunsFit(g.before + g.after) && FormFile(c) by {
      FitParts(g);
    }
    DraftOfExport(f);
    ExportedHoldable(f, ctx);
    ExportedTriggers(f, ctx, c);
    SameAreHeld(c, ctx);
    var h := f.(settings := TrimmedCommands(f.settings));
    ExportAgain(f, h);
    assert FileOn(c).Some? ==> f.triggers.Some? && Triggers.MapTriggers(f.triggers.value) == Triggers.Mapped(FileOn(c).value) by {
      OnIsMapped(f);
    }
    ImportNeverDiffers(c, ctx, h);
  }

  lemma OnIsMapped(f: Form)
    ensures ExportedOn(f.triggers).Some? ==> f.triggers.Some? && Triggers.MapTriggers(f.triggers.value) == Triggers.Mapped(ExportedOn(f.triggers).value)
  {
    hide Triggers.MapTriggers;
  }

  lemma FitParts(g: Generated)
    requires GeneratedFits(g)
    ensures RunsFit(g.before + g.after) && FormFile(FileFor(g))
  {
    hide RunsFit, NameFits.NamesFit, KeysOk, DistinctTargets, BuildsFit, ListFits, TriggersOk, TriggersSizeOk, OffsetOk, NormalizeLabels,
      TargetEntries, Entries;
  }

  // ── Without the settings ────────────────────────────────────────

  ghost predicate BlankFree(args: seq<string>) {
    forall i :: 0 <= i < |args| ==> args[i] != [] && forall j :: 0 <= j < |args[i]| ==> !IsSpace(args[i][j])
  }

  lemma {:induction false} ArgsEnd(args: seq<string>)
    requires BlankFree(args) && args != []
    ensures ArgsText(args) != [] && !IsSpace(ArgsText(args)[|ArgsText(args)| - 1])
  {
    hide IsSpace;
    var text, rest := ArgsText(args), ArgsText(args[1..]);
    if |args| > 1 {
      ArgsEnd(args[1..]);
      assert text[|text| - 1] == rest[|rest| - 1];
    } else {
      assert rest == [];
      assert text[|text| - 1] == args[0][|args[0]| - 1];
    }
  }

  lemma CommandTrimmed(base: string, args: seq<string>)
    requires base != [] && !IsSpace(base[0]) && !IsSpace(base[|base| - 1]) && BlankFree(args)
    ensures WithArgs(base, args) != [] && IsTrimmed(WithArgs(base, args))
  {
    hide IsSpace, WithArgs, BlankFree, ArgsText;
    ArgsBehind(base, args);
    var text := ArgsText(args);
    if args == [] {
      NoArgsText();
      assert base + [] == base;
    } else {
      ArgsEnd(args);
      var all := base + text;
      assert all[|all| - 1] == text[|text| - 1];
    }
  }

  lemma PlainIsBlankFree(args: seq<string>, play: bool)
    requires PlainArgs(args, play)
    ensures BlankFree(args)
  {
    hide IsSpace, IsQuote;
    forall i | 0 <= i < |args|
      ensures args[i] != [] && forall j :: 0 <= j < |args[i]| ==> !IsSpace(args[i][j])
    {
      assert PlainArg(args[i], play);
    }
  }

  lemma {:induction false} BundleArgsPlain(args: seq<string>, play: bool)
    requires PlainArgs(args, play)
    ensures PlainArgs(BundleArgs(args), play)
  {
    hide PlainArg;
    if args != [] {
      BundleArgsPlain(args[1..], play);
    }
  }

  lemma BasesTrimmed(platform: Platform)
    ensures
      var base, bundle := BaseCommand(platform), BundleBase();
      && base != [] && !IsSpace(base[0]) && !IsSpace(base[|base| - 1])
      && bundle != [] && !IsSpace(bundle[0]) && !IsSpace(bundle[|bundle| - 1])
  {
    var base, bundle := BaseCommand(platform), BundleBase();
    assert base[0] == 'f' && bundle[0] == 'f' && base[|base| - 1] in {'e', 'n'} && bundle[|bundle| - 1] == 'e';
  }

  lemma RenderedTrimmed(platform: Platform, args: seq<string>, play: bool)
    requires PlainArgs(args, play)
    ensures Trim(Render(platform, Inputs(None, args), play)) == Render(platform, Inputs(None, args), play)
  {
    hide IsSpace, WithArgs, PlainArgs, BlankFree, BaseCommand, BundleBase, BundleArgs, And, Trim;
    var base, bundle := BaseCommand(platform), WithArgs(BundleBase(), BundleArgs(args));
    BasesTrimmed(platform);
    PlainIsBlankFree(args, play);
    CommandTrimmed(base, args);
    var build := WithArgs(base, args);
    var all := Render(platform, Inputs(None, args), play);
    if play {
      BundleArgsPlain(args, play);
      PlainIsBlankFree(BundleArgs(args), play);
      CommandTrimmed(BundleBase(), BundleArgs(args));
      assert all == build + And() + bundle;
      assert all[0] == build[0] && all[|all| - 1] == bundle[|bundle| - 1];
    }
    TrimTrimmed(all);
  }

  /** Read without any settings at hand, plain arguments of default commands come back. */
  lemma ArgumentsReadBack(f: Form, i: nat)
    requires Exportable(f) && i < |f.settings.platforms|
    requires For(f.settings.commands, f.settings.platforms[i]).None?
    requires PlainArgs(For(f.settings.args, f.settings.platforms[i]), f.play && f.settings.platforms[i].Android?)
    ensures
      var read := DraftSettings(PlanFor(Exported(f)), f.play, None);
      For(read.commands, f.settings.platforms[i]).None? && For(read.args, f.settings.platforms[i]) == For(f.settings.args, f.settings.platforms[i])
  {
    hide Exportable, NormalizeLabels, PlanFor, Exported, StepsOf, StepsIn, RunsOfSteps, OwnBuild, KeptVersion, KeptEnv, KeptLabels,
      KeptArtifacts, Unique, TrimAll, HeldAfter, Trim, BuildName, ExportedBuild, PlainArgs, Render, ArgsFrom, TargetInputsFor, BuildSteps;
    assert NormalizeLabels(f.settings.runsOn).Some? && DistinctPlatforms(f.settings.platforms) by {
      ExportableParts(f);
    }
    var platforms := f.settings.platforms;
    var platform := platforms[i];
    var play := f.play && platform.Android?;
    ExportedPhases(f);
    TargetPlatforms(f);
    var builds := BuildsOf(ExportedTargets(f));
    BuildsAreSteps(ExportedTargets(f), platforms);
    BuildCount(f);
    HeldOf(builds, platforms, |builds|, f.play, None);
    ExportedIsRendered(f.settings, platform, f.play);
    RenderedTrimmed(platform, For(f.settings.args, platform), play);
    ArgsRecovered(platform, For(f.settings.args, platform), play);
    assert InputsFor(builds[i], f.play, None) == Inputs(None, For(f.settings.args, platform));
  }

  lemma ExportableParts(f: Form)
    requires Exportable(f)
    ensures NormalizeLabels(f.settings.runsOn).Some? && DistinctPlatforms(f.settings.platforms)
  {
    hide NormalizeLabels, DistinctPlatforms, NoReferences;
  }

  /** Arguments read from a command alone make a command without blanks around it. */
  lemma ReadArgsTrimmed(platform: Platform, build: string, play: bool, s: Settings)
    requires InputsOf(Held(s.commands, s.args), platform) == TargetInputsFor(platform, build, play, None)
    requires For(s.commands, platform).None?
    ensures Trim(PlatformCommand(s, platform)) == PlatformCommand(s, platform)
  {
    hide WithArgs, BaseCommand, BundleBase, IsSpace, Trim, Render, FirstPart, IsQuoted, Words;
    var args := For(s.args, platform);
    assert BlankFree(args) by {
      ReadArgsBlankFree(platform, build, play);
    }
    BasesTrimmed(platform);
    CommandTrimmed(BaseCommand(platform), args);
    TrimTrimmed(WithArgs(BaseCommand(platform), args));
  }

  lemma ReadArgsBlankFree(platform: Platform, build: string, play: bool)
    requires TargetInputsFor(platform, build, play, None).command.None?
    ensures BlankFree(TargetInputsFor(platform, build, play, None).args)
  {
    hide Render, FirstPart, IsQuoted, IsSpace, Words;
    var args := ArgsFrom(platform, build, play);
    assert args.Some?;
  }

  lemma ReadListIsGood(patterns: seq<string>)
    requires patterns != [] && AllPatternsGood(patterns)
    ensures
      var once := Unique(TrimAll(patterns));
      NoReferences(once) && !HasBlank(once)
  {
    hide Unique, Contains, Trim;
    var once := Unique(TrimAll(patterns));
    forall i | 0 <= i < |once|
      ensures !Contains(once[i], OPEN) && !IsBlank(once[i])
    {
      assert once[i] in TrimAll(patterns);
      var k :| 0 <= k < |patterns| && Trim(patterns[k]) == once[i];
      TrimmedHasNoMore(patterns[k], OPEN);
      TrimTwice(patterns[k]);
    }
  }
}

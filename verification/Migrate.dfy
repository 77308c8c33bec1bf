/** Migrating a version 1 file keeps what it does. */
module Migrate {
  import opened Wrappers
  import opened Text
  import opened References
  import opened StepNames
  import opened SecretText
  import opened Plan
  import opened Labels
  import opened Lower
  import opened FileChecks
  import opened GeneratedFile
  import opened GeneratedChecks
  import opened GeneratedBehaviour
  import opened UserSteps
  import opened NameFits
  import opened Convert
  import opened SharedBuild

  // ── Valid version 1 files ───────────────────────────────────────

  predicate NoneBlank(commands: seq<string>) {
    forall i :: 0 <= i < |commands| ==> !IsBlank(commands[i])
  }

  predicate EnvKeysOk(env: seq<EnvVar>) {
    && (forall i :: 0 <= i < |env| ==> IsEnvKey(Trim(env[i].key)))
    && (forall i, j :: 0 <= i < j < |env| ==> Trim(env[i].key) != Trim(env[j].key))
  }

  ghost predicate SecretEnv(env: seq<EnvVar>) {
    forall i :: 0 <= i < |env| ==> SecretsOnly(env[i].value)
  }

  ghost predicate SecretSettings(s: Settings) {
    SecretTexts(s.preBuild) && SecretTexts(s.build) && SecretTexts(s.postBuild) && SecretCommands(s) && SecretEnv(s.env)
  }

  predicate PatternsOk(patterns: seq<string>) {
    forall i :: 0 <= i < |patterns| ==> IsArtifactPattern(patterns[i])
  }

  /** What parsing a version 1 file checks; its labels come out normalized. */
  ghost predicate ValidV1(s: Settings) {
    && s.platforms != []
    && NoneBlank(s.preBuild) && NoneBlank(s.build) && NoneBlank(s.postBuild)
    && PatternsOk(s.artifacts) && OffsetOk(s.offset)
    && NormalizeLabels(s.runsOn) == Some(s.runsOn)
    && EnvKeysOk(s.env) && SecretSettings(s)
  }

  predicate Convertible(s: Settings) {
    DistinctPlatforms(s.platforms) && NoReferences(s.artifacts)
  }

  // ── `migrate_pipeline_config` ───────────────────────────────────

  /** The plan of the version 1 file, with a shared build as one build. */
  function ExpectedOfV1(s: Settings): Behaviour
    requires s.platforms != []
  {
    var behaviour := BehaviourOf(PlanSettings(s, s.build == [], false));
    if s.build == [] then behaviour else OneBuildOf(behaviour, s.platforms[0])
  }

  /** The new file, or one of `verify`'s two reports. */
  datatype Migration = Refused | InvalidFile | Differs | Migrated

  ghost function MigrateSettings(s: Settings): Migration
    requires s.platforms != []
  {
    if !Convertible(s) then Refused
    else
      var file := FileFor(Converted(s));
      if !FileOk(file) then InvalidFile
      else if BehaviourOf(LowerConfig(file, None, None).value) != ExpectedOfV1(s) then Differs
      else Migrated
  }

  // ── The new file plans ──────────────────────────────────────────

  lemma TargetsSecret(s: Settings)
    requires s.platforms != [] && SecretTexts(s.build) && SecretCommands(s)
    ensures forall i :: 0 <= i < |TargetsOfSettings(s)| ==> SecretsOnly(TargetsOfSettings(s)[i].build)
  {
    hide SecretsOnly, PlatformCommand, JoinShared, SecretCommands, SecretTexts;
    forall platform: Platform
      ensures SecretsOnly(PlatformCommand(s, platform))
    {
      PlatformCommandSecret(s, platform);
    }
    JoinedSecret(s.build);
  }

  lemma EnvSecret(env: seq<EnvVar>)
    requires SecretEnv(env)
    ensures forall i :: 0 <= i < |env| ==> SecretsOnly(EnvPairs(env)[i].1)
  {
    hide SecretsOnly, Trim;
    forall i | 0 <= i < |env|
      ensures SecretsOnly(EnvPairs(env)[i].1)
    {
      SecretsTrim(env[i].value);
    }
  }

  lemma TrimAllTrimmed(patterns: seq<string>)
    ensures Trimmed(Unique(TrimAll(patterns))) && Distinct(Unique(TrimAll(patterns)))
  {
    hide Trim, Unique;
    forall i | 0 <= i < |patterns|
      ensures Trim(TrimAll(patterns)[i]) == TrimAll(patterns)[i]
    {
      TrimTwice(patterns[i]);
    }
    UniqueTrimmed(TrimAll(patterns));
  }

  lemma PatternsGood(patterns: seq<string>)
    requires PatternsOk(patterns) && NoReferences(patterns)
    ensures GoodPatterns(Unique(TrimAll(patterns)))
    ensures forall i :: 0 <= i < |Unique(TrimAll(patterns))| ==> Size(Unique(TrimAll(patterns))[i]) <= MAX_RAW_PATTERN_BYTES
  {
    hide IsArtifactPattern, Contains, Trim, Unique, Size;
    var once := Unique(TrimAll(patterns));
    forall i | 0 <= i < |once|
      ensures GoodPattern(once[i]) && Size(once[i]) <= MAX_RAW_PATTERN_BYTES
    {
      assert once[i] in TrimAll(patterns);
      var k :| 0 <= k < |patterns| && Trim(patterns[k]) == once[i];
      assert GoodPattern(patterns[k]);
      TrimmedPattern(patterns[k]);
      PatternIsShort(patterns[k]);
    }
  }

  lemma PatternIsShort(pattern: string)
    requires IsArtifactPattern(pattern)
    ensures Size(Trim(pattern)) <= 512
  {
    hide Trim, Utf8, Split;
  }

  lemma NamesAround(s: Settings)
    requires s.platforms != []
    ensures
      var g := Converted(s);
      OwnNames(BuildNames(g.targets), g.before + g.after)
  {
    hide OwnNames, StepsBefore, StepsFor, BuildNames, StepNameSet, TargetsOfSettings, Unique, TrimAll, ExplicitList, TrimmedVersion;
    var names := BuildNames(TargetsOfSettings(s));
    var before := StepsBefore(names, s.build == [], s.preBuild);
    BeforeNames(names, s.build == [], s.preBuild);
    StepsForAre(names + StepNameSet(before), s.postBuild);
    OwnNamesConcat(names, before, StepsFor(names + StepNameSet(before), s.postBuild));
  }

  lemma ConvertedPlannable(s: Settings)
    requires ValidV1(s) && NoReferences(s.artifacts)
    ensures Plannable(Converted(s))
  {
    hide SecretsOnly, SecretTexts, SecretCommands, SecretEnv, NoneBlank, PatternsOk, EnvKeysOk, NormalizeLabels, NoReferences,
      TargetsOfSettings, StepsBefore, StepsFor, Unique, BuildNames, StepNameSet, DefaultsFor, TrimmedVersion, GoodPatterns, EnvPairs,
      DistinctSteps, ClearOfBuilds, SecretSteps, OwnNames, TrimAll;
    var g := Converted(s);
    var names := BuildNames(g.targets);
    TargetsSecret(s);
    EnvSecret(s.env);
    PatternsGood(s.artifacts);
    NamesAround(s);
    OwnNamesPlannable(g.targets, g.before + g.after);
    BeforeSecret(names, s.build == [], s.preBuild);
    UserStepsSecret(names + StepNameSet(g.before), s.postBuild);
  }

  // ── It does the same ────────────────────────────────────────────

  lemma RunsIn(phase: Phase, commands: seq<Command>)
    ensures AllIn(phase, Runs(phase, commands))
  {
    hide Trim;
  }

  lemma SharedRuns(commands: seq<string>)
    ensures RunsOf(Runs(Build, UserCommands(commands))) == TrimAll(commands)
  {
    hide Trim;
  }

  lemma DefaultBuilds(s: Settings, k: nat)
    requires k <= |s.platforms|
    ensures AllPlatformBuilds(s, s.platforms[k..], false)
      == seq(|s.platforms| - k, i requires 0 <= i < |s.platforms| - k => Command(PlatformCommand(s, s.platforms[k + i]), Some(s.platforms[k + i])))
    decreases |s.platforms| - k
  {
    hide PlatformCommand;
    if k < |s.platforms| {
      DefaultBuilds(s, k + 1);
      assert s.platforms[k..][1..] == s.platforms[k + 1..];
    }
  }

  lemma TargetsBuilt(s: Settings)
    requires s.platforms != [] && s.build == []
    ensures Built(TargetsOfSettings(s)) == Runs(Build, AllPlatformBuilds(s, s.platforms, false) + UserCommands(s.build))
  {
    hide PlatformCommand, Trim, AllPlatformBuilds;
    DefaultBuilds(s, 0);
    assert s.platforms[0..] == s.platforms;
  }

  lemma SharedBuilt(s: Settings)
    requires s.platforms != [] && s.build != []
    ensures Built(TargetsOfSettings(s)) == [StepBehaviour(Build, JoinShared(TrimAll(s.build)), Some(s.platforms[0]))]
  {
    hide Trim, JoinShared, TrimAll;
    SharedIsTrimmed(s.build);
    JoinedOfTrimmed(s.build);
  }

  /** The steps of the new file are the expected steps. */
  lemma ConvertedSteps(s: Settings)
    requires s.platforms != []
    ensures Steps(PlanFor(Converted(s)).steps) == ExpectedOfV1(s).steps
  {
    hide Steps, Did, Built, Runs, AllPlatformBuilds, UserCommands, PubGet, TrimmedVersion, TrimmedEnv, Unique, TargetsOfSettings,
      StepsBefore, StepsFor, OneBuildOf, BuildNames, StepNameSet, ExplicitList, TrimAll, PlanFor, PlanSettings, JoinShared, AllIn;
    var g := Converted(s);
    var names := BuildNames(g.targets);
    GeneratedSteps(g);
    BeforeRun(names, s.build == [], s.preBuild);
    UserStepsRun(PostBuild, names + StepNameSet(g.before), s.postBuild);
    SettingsRun(s, s.build == [], false);
    if s.build == [] {
      TargetsBuilt(s);
    } else {
      SharedSteps(s);
    }
  }

  lemma SharedSteps(s: Settings)
    requires s.platforms != [] && s.build != []
    ensures ExpectedOfV1(s).steps
      == Runs(PreBuild, [] + UserCommands(s.preBuild)) + Built(TargetsOfSettings(s)) + Runs(PostBuild, UserCommands(s.postBuild))
  {
    hide Steps, Built, Runs, AllPlatformBuilds, PubGet, TrimmedVersion, TrimmedEnv, Unique, TargetsOfSettings, OneBuildOf, TrimAll,
      PlanSettings, JoinShared, AllIn;
    var b := BehaviourOf(PlanSettings(s, false, false));
    SettingsRun(s, false, false);
    var pre, builds, post := [] + UserCommands(s.preBuild), UserCommands(s.build), UserCommands(s.postBuild);
    assert [] + builds == builds;
    RunsIn(PreBuild, pre);
    RunsIn(Build, builds);
    RunsIn(PostBuild, post);
    OneBuildInPlace(b, s.platforms[0], Runs(PreBuild, pre), Runs(Build, builds), Runs(PostBuild, post));
    SharedRuns(s.build);
    SharedBuilt(s);
  }

  lemma ExpectedRest(s: Settings)
    requires s.platforms != []
    ensures
      var b := ExpectedOfV1(s);
      && b.platforms == PlatformsOf(Converted(s)) && b.flutterVersion == TrimmedVersion(s.flutterVersion)
      && b.env == TrimmedEnv(s.env) && b.artifacts == Unique(TrimAll(s.artifacts))
      && b.offset == s.offset && b.runsOn == s.runsOn && b.isolation == s.isolation
  {
    hide Steps, TrimmedVersion, TrimmedEnv, Unique, TrimAll, PlatformCommand, JoinShared, NotBuilds, BuildRuns, FirstBuild, ExplicitList,
      StepsFor, StepsBefore, BuildNames, Plan.Named, AllPlatformBuilds, UserCommands;
    assert PlatformsOf(Converted(s)) == if s.build == [] then s.platforms else [s.platforms[0]];
  }

  /** The new file does what was expected, in everything but an empty artifact list. */
  lemma ConvertedBehaviour(s: Settings)
    requires s.platforms != [] && NormalizeLabels(s.runsOn) == Some(s.runsOn)
    ensures
      var g := Converted(s);
      BehaviourOf(PlanFor(g)) == ExpectedOfV1(s).(artifacts := if s.artifacts == [] then DefaultsFor(g.targets) else ExpectedOfV1(s).artifacts)
  {
    hide Steps, TrimmedEnv, Unique, TrimAll, TargetsOfSettings, StepsBefore, StepsFor, BuildNames, StepNameSet, DefaultsFor,
      NormalizeLabels, EnvOf, StepsIn, BuildsOf, Concat, PatternLists, ExpectedOfV1, PlatformsOf, Trimmed, Distinct, EnvPairs;
    var g := Converted(s);
    ConvertedSteps(s);
    ExpectedRest(s);
    EnvKept(s.env);
    VersionKept(s.flutterVersion);
    TrimAllTrimmed(s.artifacts);
    ListKept(g, Unique(TrimAll(s.artifacts)));
    EmptyList(s.artifacts);
  }

  lemma EmptyList(patterns: seq<string>)
    ensures Unique(TrimAll(patterns)) == [] <==> patterns == []
  {
    hide Trim;
    if patterns != [] {
      assert TrimAll(patterns)[0] in Unique(TrimAll(patterns));
    }
  }

  // ── When it is valid ────────────────────────────────────────────

  predicate CommandsFit(commands: seq<string>) {
    forall i :: 0 <= i < |commands| ==> Size(Trim(commands[i])) <= MAX_COMMAND_BYTES
  }

  /** The size limits of version 2 that version 1 does not have. */
  ghost predicate FitsSizes(s: Settings)
    requires s.platforms != []
  {
    && |s.env| <= MAX_ENV_ENTRIES
    && (if s.build == [] then 1 else 0) + |s.preBuild| + 1 + |s.postBuild| <= MAX_STEPS
    && CommandsFit(s.preBuild) && CommandsFit(s.postBuild) && BuildsFit(TargetsOfSettings(s))
    && (Unique(TrimAll(s.artifacts)) == DefaultsFor(TargetsOfSettings(s)) || |Unique(TrimAll(s.artifacts))| <= MAX_ARTIFACT_PATTERNS)
  }

  /** Sizes, and derived step names that version 2 accepts. */
  ghost predicate FitsV2(s: Settings)
    requires s.platforms != []
  {
    FitsSizes(s) && NamesFit(Converted(s).before + Converted(s).after)
  }

  lemma RunsFitIff(names: set<string>, commands: seq<string>)
    requires NoneBlank(commands)
    ensures RunsFit(StepsFor(names, commands)) <==> CommandsFit(commands)
  {
    hide StepsFor, Trim, Size;
    StepsForAre(names, commands);
    var steps := StepsFor(names, commands);
    forall i | 0 <= i < |commands|
      ensures steps[i].run == Trim(commands[i]) && !IsBlank(steps[i].run)
    {
      TrimTwice(commands[i]);
    }
    if RunsFit(steps) {
      forall i | 0 <= i < |commands|
        ensures Size(Trim(commands[i])) <= MAX_COMMAND_BYTES
      {
        assert Size(steps[i].run) <= MAX_COMMAND_BYTES;
      }
    }
  }

  lemma RunsFitConcat(a: seq<Step>, b: seq<Step>)
    ensures RunsFit(a + b) <==> RunsFit(a) && RunsFit(b)
  {
    hide Size, IsBlank;
    var c := a + b;
    assert forall i :: 0 <= i < |a| ==> c[i] == a[i];
    assert forall i :: 0 <= i < |b| ==> c[|a| + i] == b[i];
  }

  lemma PubGetFits(names: set<string>)
    ensures RunsFit([PubGetStep(names)])
  {
    hide UniqueName, Utf8, TrimStart, TrimEnd;
    AsciiSize(PubGet());
    TrimTrimmed(PubGet());
  }

  lemma BeforeFits(names: set<string>, packages: bool, commands: seq<string>)
    requires NoneBlank(commands)
    ensures RunsFit(StepsBefore(names, packages, commands)) <==> CommandsFit(commands)
    ensures |StepsBefore(names, packages, commands)| == (if packages then 1 else 0) + |commands|
  {
    hide RunsFit, CommandsFit, StepsFor, PubGetStep, StepNameSet, NoneBlank;
    var first := if packages then [PubGetStep(names)] else [];
    PubGetFits(names);
    assert RunsFit([]) by {
      NothingFits();
    }
    RunsFitIff(names + StepNameSet(first), commands);
    RunsFitConcat(first, StepsFor(names + StepNameSet(first), commands));
  }

  lemma StepsFit(s: Settings)
    requires s.platforms != [] && NoneBlank(s.preBuild) && NoneBlank(s.postBuild)
    ensures
      var g := Converted(s);
      && (RunsFit(g.before + g.after) <==> CommandsFit(s.preBuild) && CommandsFit(s.postBuild))
      && |g.before| + 1 + |g.after| == (if s.build == [] then 1 else 0) + |s.preBuild| + 1 + |s.postBuild|
  {
    hide RunsFit, CommandsFit, StepsFor, StepsBefore, StepNameSet, NoneBlank, TargetsOfSettings, BuildNames, Unique, ExplicitList,
      TrimmedVersion, TrimAll;
    var g := Converted(s);
    var names := BuildNames(g.targets);
    BeforeFits(names, s.build == [], s.preBuild);
    RunsFitIff(names + StepNameSet(g.before), s.postBuild);
    RunsFitConcat(g.before, g.after);
  }

  lemma KeysKept(env: seq<EnvVar>)
    requires EnvKeysOk(env)
    ensures KeysOk(EnvPairs(env))
  {
    hide Trim, IsEnvKey;
  }

  lemma TargetsDistinct(s: Settings)
    requires s.platforms != [] && DistinctPlatforms(s.platforms)
    ensures DistinctTargets(TargetsOfSettings(s))
  {
    hide PlatformCommand, JoinShared;
  }

  lemma ConvertedFits(s: Settings)
    requires ValidV1(s) && Convertible(s)
    ensures GeneratedFits(Converted(s)) <==> FitsV2(s)
  {
    hide SecretSettings, NoneBlank, PatternsOk, EnvKeysOk, NormalizeLabels, NoReferences, DistinctPlatforms, RunsFit, CommandsFit, NamesFit,
      BuildsFit, DistinctTargets, KeysOk, TargetsOfSettings, StepsBefore, StepsFor, Unique, BuildNames, StepNameSet, DefaultsFor,
      TrimmedVersion, EnvPairs, TrimAll, IsBlank, Size, OffsetOk, GoodPatterns;
    var g := Converted(s);
    StepsFit(s);
    KeysKept(s.env);
    TargetsDistinct(s);
    PatternsGood(s.artifacts);
    assert g.flutter.Some? ==> !IsBlank(g.flutter.value) by {
      VersionKept(s.flutterVersion);
    }
  }

  /** Of a valid version 1 file that is not refused: the generated file is invalid exactly
      when version 2's limits are exceeded, and it differs exactly when the file lists no
      artifacts. Every other file is migrated. */
  lemma MigrationOutcome(s: Settings)
    requires ValidV1(s) && Convertible(s)
    ensures MigrateSettings(s) == if !FitsV2(s) then InvalidFile else if s.artifacts == [] then Differs else Migrated
  {
    hide Convertible, SecretSettings, NoneBlank, PatternsOk, EnvKeysOk, NormalizeLabels, Converted, FitsV2, GeneratedFits, Plannable,
      FileOk, LowerConfig, ExpectedOfV1, BehaviourOf, FileFor, PlanFor, DefaultsFor, OffsetOk;
    var g := Converted(s);
    assert g.targets != [] && NoReferences(s.artifacts) by {
      ConvertedTargets(s);
    }
    ConvertedPlannable(s);
    ConvertedFits(s);
    GeneratedFileOk(g);
    GeneratedPlan(g);
    ConvertedBehaviour(s);
    ExpectedArtifacts(s);
    DefaultsNotEmpty(g.targets);
  }

  lemma ConvertedTargets(s: Settings)
    requires s.platforms != [] && Convertible(s)
    ensures Converted(s).targets != [] && NoReferences(s.artifacts)
  {
    hide TargetsOfSettings, StepsBefore, StepsFor, Unique, BuildNames, StepNameSet, DefaultsFor, NoReferences;
  }

  lemma ExpectedArtifacts(s: Settings)
    requires s.platforms != []
    ensures ExpectedOfV1(s).artifacts == [] <==> s.artifacts == []
  {
    hide ExpectedOfV1, Unique, TrimAll;
    ExpectedRest(s);
    EmptyList(s.artifacts);
  }

  lemma DefaultsNotEmpty(targets: seq<BuildTarget>)
    requires targets != []
    ensures DefaultsFor(targets) != []
  {
    hide Unique, DefaultArtifacts, Join;
    var lists := DefaultLists(targets);
    assert |lists[0]| == |DefaultSegments(targets[0].platform)| >= 1;
    assert lists[0][0] in Concat(lists);
    assert lists[0][0] in Unique(Concat(lists));
  }

  // ── Printable commands ──────────────────────────────────────────

  ghost predicate PrintableLines(commands: seq<string>) {
    forall i :: 0 <= i < |commands| ==> PrintableOrBlank(FirstLine(Trim(commands[i])))
  }

  lemma FewBuildNames(targets: seq<BuildTarget>)
    ensures |BuildNames(targets)| <= 3
  {
    hide BuildName;
    var all := {BuildName(Android, None), BuildName(Ios, None), BuildName(Macos, None)};
    forall name | name in BuildNames(targets)
      ensures name in all
    {
      var i :| 0 <= i < |targets| && BuildName(targets[i].platform, None) == name;
      match targets[i].platform {
        case Android =>
        case Ios =>
        case Macos =>
      }
    }
    Subset(BuildNames(targets), all);
  }

  lemma {:induction false} Subset(a: set<string>, b: set<string>)
    requires a <= b
    ensures |a| <= |b|
  {
    if a != {} {
      var x :| x in a;
      Subset(a - {x}, b - {x});
    }
  }

  lemma {:induction false} NameCount(names: set<string>, steps: seq<Step>)
    ensures |names + StepNameSet(steps)| <= |names| + |steps|
  {
    hide StepNameSet;
    if steps == [] {
      assert StepNameSet(steps) == {};
    } else {
      var init, last := steps[..|steps| - 1], steps[|steps| - 1];
      assert steps == init + [last];
      NameCount(names, init);
      NamesWith(names, init, last);
    }
  }

  lemma GetPackagesFits(names: set<string>)
    requires |names| <= 250
    ensures StepNameFits(UniqueName(names, GetPackages()))
  {
    hide StepNameFits, UniqueName, IsSpace;
    assert IsName(GetPackages()) by {
      PubGetFacts();
    }
    BaseFits(names, GetPackages());
  }

  lemma NamesFitConcat(a: seq<Step>, b: seq<Step>)
    requires NamesFit(a) && NamesFit(b)
    ensures NamesFit(a + b)
  {
    hide StepNameFits;
  }

  /** Of files with printable commands within the size limits, every one that lists
      artifacts is migrated. */
  lemma PrintableMigrates(s: Settings)
    requires ValidV1(s) && Convertible(s) && FitsSizes(s)
    requires PrintableLines(s.preBuild) && PrintableLines(s.postBuild)
    ensures MigrateSettings(s) == if s.artifacts == [] then Differs else Migrated
  {
    hide ValidV1, Convertible, MigrateSettings, CommandsFit, BuildsFit, Unique, TrimAll, DefaultsFor, PrintableLines, NamesFit, Converted;
    assert s.platforms != [] by {
      HasPlatforms(s);
    }
    PrintableNames(s);
    MigrationOutcome(s);
  }

  lemma HasPlatforms(s: Settings)
    requires ValidV1(s)
    ensures s.platforms != []
  {
    hide SecretSettings, NoneBlank, PatternsOk, EnvKeysOk, NormalizeLabels;
  }

  lemma PrintableNames(s: Settings)
    requires s.platforms != [] && PrintableLines(s.preBuild) && PrintableLines(s.postBuild)
    requires 2 + |s.preBuild| + |s.postBuild| <= 2 * MAX_STEPS
    ensures NamesFit(Converted(s).before + Converted(s).after)
  {
    hide NamesFit, StepsFor, UniqueName, StepNameSet, TargetsOfSettings, BuildNames, Unique, ExplicitList, TrimmedVersion, TrimAll,
      GetPackages, PubGet, PrintableOrBlank, FirstLine, Trim;
    var g := Converted(s);
    var names := BuildNames(g.targets);
    var first := if s.build == [] then [PubGetStep(names)] else [];
    FewBuildNames(g.targets);
    GetPackagesFits(names);
    assert NamesFit(first) by {
      OneNameFits(names, first);
    }
    NameCount(names, first);
    PrintableNamesFit(names + StepNameSet(first), s.preBuild);
    NamesFitConcat(first, StepsFor(names + StepNameSet(first), s.preBuild));
    NameCount(names, g.before);
    PrintableNamesFit(names + StepNameSet(g.before), s.postBuild);
    NamesFitConcat(g.before, g.after);
  }

  lemma OneNameFits(names: set<string>, steps: seq<Step>)
    requires steps == [] || steps == [PubGetStep(names)]
    requires StepNameFits(UniqueName(names, GetPackages()))
    ensures NamesFit(steps)
  {
    hide StepNameFits, UniqueName, GetPackages;
  }
}

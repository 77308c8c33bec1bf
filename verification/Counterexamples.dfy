/** Concrete inputs at the edges of migration and export. */
module Counterexamples {
  import opened Wrappers
  import opened Text
  import opened References
  import opened StepNames
  import opened SecretText
  import opened Plan
  import opened Labels
  import opened Lower
  import opened FileChecks
  import opened GeneratedFile
  import opened GeneratedChecks
  import opened GeneratedBehaviour
  import opened UserSteps
  import opened NameFits
  import opened Convert
  import opened ExportSteps
  import opened Export
  import Migrate

  /** Settings for one platform with default commands, no artifacts and nothing else. */
  function Bare(platform: Platform): Settings {
    Settings([platform], None, [], [], [], PerPlatform([], [], []), PerPlatform(None, None, None), [], [], 0, [], OnHost)
  }

  lemma NoLabels()
    ensures NormalizeLabels([]) == Some([])
  {
  }

  lemma BareSecrets(platform: Platform)
    ensures SecretCommands(Bare(platform))
  {
    hide SecretsOnly;
  }

  lemma StartsWithF(s: Settings, platform: Platform)
    requires For(s.commands, platform).None?
    ensures PlatformCommand(s, platform) != [] && PlatformCommand(s, platform)[0] == 'f'
  {
    hide Join;
    var base := BaseCommand(platform);
    assert base[0] == 'f';
  }

  lemma NotBlank(text: string)
    requires text != [] && text[0] == 'f'
    ensures !IsBlank(text)
  {
    hide TrimEnd;
    assert !IsSpace(text[0]);
    assert TrimStart(text) == text;
    TrimEndIs(text);
  }

  lemma ShortCommand(platform: Platform)
    ensures Size(BaseCommand(platform)) <= MAX_COMMAND_BYTES
  {
    hide Utf8;
    AsciiSize(BaseCommand(platform));
    assert |BaseCommand(platform)| <= 50;
  }

  // ── Migration ───────────────────────────────────────────────────

  lemma BareIsValid(s: Settings, platform: Platform)
    requires s == Bare(platform)
    ensures Migrate.ValidV1(s) && Migrate.Convertible(s)
  {
    hide SecretsOnly, NormalizeLabels;
    NoLabels();
    BareSecrets(platform);
  }

  lemma BareTargetsFit(platform: Platform)
    ensures BuildsFit(TargetsOfSettings(Bare(platform)))
  {
    hide Size, IsBlank, BaseCommand;
    var s := Bare(platform);
    var targets := TargetsOfSettings(s);
    StartsWithF(s, platform);
    NotBlank(PlatformCommand(s, platform));
    ShortCommand(platform);
    assert |targets| == 1 && targets[0].build == BaseCommand(platform);
  }

  /** A file that lists no artifacts is reported to build differently: an empty list is
      written as no list, and no list means the defaults. */
  lemma NoArtifactsDiffer(platform: Platform)
    ensures Migrate.MigrateSettings(Bare(platform)) == Migrate.Differs
  {
    hide Migrate.ValidV1, Migrate.Convertible, Migrate.MigrateSettings, BuildsFit, TargetsOfSettings, DefaultsFor, Unique;
    var s := Bare(platform);
    BareIsValid(s, platform);
    BareTargetsFit(platform);
    Migrate.EmptyList([]);
    Migrate.PrintableMigrates(s);
  }

  lemma {:induction false} FreeKeepsBase(names: set<string>, base: string, k: nat)
    requires k >= 1 && forall j :: 1 <= j < k ==> Attempt(base, j) in names
    ensures base <= FreeFrom(names, base, k)
    decreases |names| + 1 - k
  {
    hide Attempt;
    AttemptsFit(names, base, k);
    AttemptStarts(base, k);
    if Attempt(base, k) in names {
      FreeKeepsBase(names, base, k + 1);
    }
  }

  lemma AttemptStarts(base: string, k: nat)
    ensures base <= Attempt(base, k)
  {
    hide Digits;
  }

  lemma LongNamesStayLong(names: set<string>, base: string)
    requires IsName(base) && Size(base) > MAX_STEP_NAME_LENGTH
    ensures !StepNameFits(UniqueName(names, base))
  {
    hide FreeFrom, Utf8, IsControl, Trim, IsSpace;
    var name := UniqueName(names, base);
    FreeKeepsBase(names, base, 1);
    assert name == base + name[|base|..];
    Utf8Concat(base, name[|base|..]);
    UniqueIsName(names, base);
    TrimTrimmed(name);
  }

  function WithLongCommand(platform: Platform): Settings {
    Bare(platform).(postBuild := [Euros(60)])
  }

  /** A valid file with one command of sixty three-byte characters: the generated file does
      not validate, because its derived step name is too long. */
  lemma LongNameIsInvalid(platform: Platform)
    ensures Migrate.ValidV1(WithLongCommand(platform)) && Migrate.Convertible(WithLongCommand(platform))
    ensures Migrate.MigrateSettings(WithLongCommand(platform)) == Migrate.InvalidFile
  {
    hide Migrate.MigrateSettings, Migrate.ValidV1, Migrate.Convertible, Migrate.FitsSizes, Euros, NamesFit, StepsFor, StepsBefore,
      StepNameSet, BuildNames, TargetsOfSettings, ExplicitList, Unique, TrimAll, StepNameFits, StepName, UniqueName;
    var s := WithLongCommand(platform);
    LongIsValid(platform);
    var g := Converted(s);
    LongStep(BuildNames(g.targets) + StepNameSet(g.before), g.before);
    Migrate.MigrationOutcome(s);
  }

  lemma LongStep(names: set<string>, before: seq<Step>)
    ensures !NamesFit(before + StepsFor(names, [Euros(60)]))
  {
    hide Euros, StepNameFits, StepName, UniqueName, Trim;
    LongDerivedName();
    var steps := before + StepsFor(names, [Euros(60)]);
    assert Trim(Euros(60)) == Euros(60) by {
      LongTrimmed();
    }
    LongNameUnique(names);
    assert steps[|before|] == StepsFor(names, [Euros(60)])[0];
    assert !StepNameFits(steps[|before|].name);
  }

  lemma LongTrimmed()
    ensures Trim(Euros(60)) == Euros(60)
  {
    hide TrimStart, TrimEnd;
    TrimTrimmed(Euros(60));
  }

  lemma LongNameUnique(names: set<string>)
    ensures !StepNameFits(UniqueName(names, StepName(Euros(60))))
  {
    hide StepNameFits, UniqueName, StepName, Euros, Utf8;
    LongDerivedName();
    StepNameIsName(Euros(60));
    EurosSize(60);
    LongNamesStayLong(names, Euros(60));
  }

  lemma LongIsValid(platform: Platform)
    ensures Migrate.ValidV1(WithLongCommand(platform)) && Migrate.Convertible(WithLongCommand(platform))
  {
    hide SecretsOnly, NormalizeLabels, StepNameFits, StepName, IsBlank, Migrate.PatternsOk;
    var s := WithLongCommand(platform);
    NoLabels();
    BareIsValid(Bare(platform), platform);
    LongDerivedName();
    NoDollar(Euros(60));
  }

  // ── Export ──────────────────────────────────────────────────────

  ghost predicate PlainList(patterns: seq<string>) {
    && GoodPatterns(patterns) && |patterns| <= MAX_ARTIFACT_PATTERNS
    && forall i :: 0 <= i < |patterns| ==> Size(patterns[i]) <= MAX_RAW_PATTERN_BYTES
  }

  /** Forms for one platform without commands, env, labels or triggers. */
  ghost predicate PlainForm(f: Form, platform: Platform) {
    && f.triggers.None? && f.settings.platforms == [platform] && f.settings.commands == PerPlatform(None, None, None)
    && f.settings.preBuild == [] && f.settings.build == [] && f.settings.postBuild == [] && f.settings.env == []
    && f.settings.flutterVersion.None? && f.settings.offset == 0 && f.settings.runsOn == []
    && SecretCommands(f.settings) && PlainList(ExportedList(f.settings.artifacts))
    && Size(ExportedBuild(f.settings, platform, f.play)) <= MAX_COMMAND_BYTES
  }

  lemma PlainIsExportable(f: Form, platform: Platform)
    requires PlainForm(f, platform) && NoReferences(f.settings.artifacts)
    ensures Exportable(f)
  {
    hide SecretCommands, ExportedList, PlainList, Size, ExportedBuild, NoReferences, NormalizeLabels;
    NoLabels();
  }

  lemma PlainBuild(f: Form, platform: Platform)
    requires PlainForm(f, platform)
    ensures SecretsOnly(ExportedBuild(f.settings, platform, f.play)) && !IsBlank(ExportedBuild(f.settings, platform, f.play))
  {
    hide SecretsOnly, PlatformCommand, BundleCommand, SecretCommands, ExportedList, PlainList, Size, IsBlank;
    var s := f.settings;
    assert For(s.commands, platform).None?;
    PlatformCommandSecret(s, platform);
    BundleCommandSecret(s);
    StartsWithF(s, platform);
    BlanksInFront(" && ", BundleCommand(s));
    SecretsConcat(PlatformCommand(s, platform), " && " + BundleCommand(s));
    assert PlatformCommand(s, platform) + (" && " + BundleCommand(s)) == PlatformCommand(s, platform) + " && " + BundleCommand(s);
    NotBlank(ExportedBuild(s, platform, f.play));
  }

  lemma NoUserSteps(names: set<string>)
    ensures StepsFor(names, []) == [] && StepsAfter(names, [], []) == [] && StepsBefore(names, true, []) == [PubGetStep(names)]
  {
    hide PubGetStep, StepNameSet;
  }

  lemma PlainParts(f: Form, platform: Platform)
    requires PlainForm(f, platform) && NormalizeLabels(f.settings.runsOn) == Some([])
    ensures
      var g := Exported(f);
      && g.targets == [BuildTarget(platform, ExportedBuild(f.settings, platform, f.play))]
      && g.before == [PubGetStep(BuildNames(g.targets))] && g.after == [] && g.env == []
      && g.artifacts == ExplicitList(ExportedList(f.settings.artifacts), g.targets)
      && g.flutter == None && g.on == None && g.runsOn == [] && g.offset == 0
  {
    hide NormalizeLabels, ExportedBuild, ExportedList, PlainList, ExplicitList, SecretCommands, Size, StepsBefore, StepsAfter, BuildNames,
      StepNameSet, PubGetStep;
    var g := Exported(f);
    NoUserSteps(BuildNames(g.targets));
    NoUserSteps(BuildNames(g.targets) + StepNameSet(g.before));
  }

  lemma PlainFits(f: Form, platform: Platform)
    requires PlainForm(f, platform) && NormalizeLabels(f.settings.runsOn) == Some([])
    ensures GeneratedFits(Exported(f))
  {
    hide NormalizeLabels, ExportedBuild, ExportedList, SecretCommands, Size, Exported, IsBlank, StepNameFits, PubGet, UniqueName,
      GetPackages, DefaultsFor, GoodPatterns;
    PlainParts(f, platform);
    PlainBuild(f, platform);
    var g := Exported(f);
    Migrate.PubGetFits(BuildNames(g.targets));
    Migrate.FewBuildNames(g.targets);
    Migrate.GetPackagesFits(BuildNames(g.targets));
    assert g.before + g.after == g.before;
  }

  lemma PlainPlans(f: Form, platform: Platform)
    requires PlainForm(f, platform) && NormalizeLabels(f.settings.runsOn) == Some([])
    ensures Plannable(Exported(f))
  {
    hide NormalizeLabels, ExportedBuild, ExportedList, SecretCommands, Size, Exported, SecretsOnly, DistinctSteps, ClearOfBuilds, PubGet,
      UniqueName, GetPackages, GoodPatterns, DefaultsFor;
    PlainParts(f, platform);
    PlainBuild(f, platform);
    ExportedNames(f);
    var g := Exported(f);
    OwnNamesPlannable(g.targets, g.before + g.after);
    PubGetFacts();
  }

  lemma PlainOutcome(f: Form, platform: Platform)
    requires PlainForm(f, platform) && NoReferences(f.settings.artifacts)
    ensures ExportForm(f) == if BadSeam(f) || HasBlank(f.settings.artifacts) then BuildsDifferently else Outcome.Ok
  {
    hide PlainForm, NoReferences, ExportForm, BadSeam, HasBlank, Exportable, Plannable, GeneratedFits, NormalizeLabels, Exported;
    PlainIsExportable(f, platform);
    assert NormalizeLabels(f.settings.runsOn) == Some([]) by {
      PlainLabels(f, platform);
    }
    PlainFits(f, platform);
    PlainPlans(f, platform);
    ExportOutcome(f);
  }

  lemma PlainLabels(f: Form, platform: Platform)
    requires PlainForm(f, platform)
    ensures NormalizeLabels(f.settings.runsOn) == Some([])
  {
    hide SecretCommands, ExportedList, PlainList, Size, ExportedBuild, NormalizeLabels;
    NoLabels();
  }

  /** An Android argument that ends in a blank, with Google Play uploads on. */
  function TrailingBlank(): Form {
    Form(Bare(Android).(args := PerPlatform([" "], [], [])), None, true)
  }

  lemma TrailingBlankIsPlain()
    ensures PlainForm(TrailingBlank(), Android)
  {
    hide SecretsOnly, Utf8, BaseCommand, BundleBase;
    var s := TrailingBlank().settings;
    NoDollar(" ");
    var build := ExportedBuild(s, Android, true);
    BuildLength(s);
    AsciiSize(build);
    NothingListed([]);
  }

  lemma BuildLength(s: Settings)
    requires s == TrailingBlank().settings
    ensures |ExportedBuild(s, Android, true)| <= 200
  {
    assert |BaseCommand(Android)| <= 50 && |BundleBase()| <= 50;
    assert BundleArgs([" "]) == [" "] by {
      assert " "[0] != "--split-per-abi"[0];
      assert BundleArgs([" "][1..]) == [];
    }
  }

  lemma TrailingBlankSeam()
    ensures BadSeam(TrailingBlank())
  {
    hide BaseCommand, TrimStart, TrimEnd;
    var command := PlatformCommand(TrailingBlank().settings, Android);
    assert command == BaseCommand(Android) + " " + " ";
    assert command[|command| - 1] == ' ' && IsSpace(' ');
    TrimTrimmed(command);
  }

  /** Such a form is reported to build differently. */
  lemma TrailingBlankDiffers()
    ensures ExportForm(TrailingBlank()) == BuildsDifferently
  {
    hide PlainForm, ExportForm, BadSeam, HasBlank;
    TrailingBlankIsPlain();
    TrailingBlankSeam();
    PlainOutcome(TrailingBlank(), Android);
  }

  /** A form with one blank artifact pattern. */
  function BlankPattern(platform: Platform): Form {
    Form(Bare(platform).(artifacts := [" "]), None, false)
  }

  lemma BlankPatternIsPlain(platform: Platform)
    ensures PlainForm(BlankPattern(platform), platform) && NoReferences(BlankPattern(platform).settings.artifacts)
    ensures HasBlank(BlankPattern(platform).settings.artifacts)
  {
    hide SecretsOnly, Size, BaseCommand, FindFrom;
    var f := BlankPattern(platform);
    ShortCommand(platform);
    BareSecrets(platform);
    assert Trim(" ") == [] && IsBlank(f.settings.artifacts[0]) by {
      OneBlank();
    }
    assert TrimAll([" "]) == [[]];
    assert !Contains(" ", OPEN) by {
      PlainHasNoMarks();
    }
  }

  lemma OneBlank()
    ensures Trim(" ") == []
  {
    assert IsSpace(' ');
    assert TrimStart(" ") == TrimStart(" "[1..]) == [];
  }

  lemma PlainHasNoMarks()
    ensures !Contains(" ", OPEN)
  {
    hide FindFrom;
    forall k
      ensures !OccursAt(" ", OPEN, k)
    {
    }
  }

  lemma BlankPatternDiffers(platform: Platform)
    ensures ExportForm(BlankPattern(platform)) == BuildsDifferently
  {
    hide PlainForm, ExportForm, BadSeam, HasBlank, NoReferences;
    BlankPatternIsPlain(platform);
    PlainOutcome(BlankPattern(platform), platform);
  }
}

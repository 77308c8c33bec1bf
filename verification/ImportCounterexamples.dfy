/** Concrete files and editor states for which importing fails. */
module ImportCounterexamples {
  import opened Wrappers
  import opened Text
  import opened References
  import opened StepNames
  import opened SecretText
  import opened Plan
  import opened Labels
  import opened Lower
  import opened FileChecks
  import opened GeneratedFile
  import opened GeneratedChecks
  import opened GeneratedBehaviour
  import opened UserSteps
  import opened Convert
  import opened ExportSteps
  import opened Export
  import opened ImportPlan
  import opened ImportDraft
  import opened Import
  import opened ImportExport
  import opened ImportOutcome
  import opened TargetInputs
  import opened Counterexamples
  import opened FormFields
  import opened ImportFields
  import NameFits
  import Migrate
  import Triggers

  // ── Settings that were stored with a blank ──────────────────────

  /** The editor holds just the form. */
  function Holding(f: Form): Context {
    Context(Some(f.settings), f.triggers, f.play)
  }

  /** The form's own file, imported while the editor holds the form. */
  lemma OwnFile(f: Form, platform: Platform)
    requires PlainForm(f, platform) && NoReferences(f.settings.artifacts)
    ensures
      var c, plan := FileFor(Exported(f)), PlanFor(Exported(f));
      && FormFile(c) && FileOk(c) && LowerConfig(c, None, None) == Some(plan)
      && Holdable(plan, Holding(f)) && DraftSettings(plan, f.play, Some(f.settings)) == f.settings
      && Check(plan, f, FileOn(c)) == if ExportForm(f).Ok? then Same else CannotExport(ExportForm(f))
  {
    hide PlainForm, NoReferences, ExportForm, Exportable, Plannable, GeneratedFits, NormalizeLabels, Exported, FileOk, LowerConfig, PlanFor,
      FileFor, Holdable, DraftSettings, Check, FileOn, FormFile, FormLines, TrimmedCommands, RunsFit, Triggers.MapTriggers;
    PlainIsExportable(f, platform);
    assert NormalizeLabels(f.settings.runsOn) == Some([]) by {
      PlainLabels(f, platform);
    }
    PlainFits(f, platform);
    PlainPlans(f, platform);
    ExportedFileOk(f);
    var g := Exported(f);
    FitParts(g);
    PlainLines(f, platform);
    DraftOfExport(f);
    ExportedHoldable(f, Holding(f));
    assert FileOn(FileFor(g)).None? by {
      NoOn(f, platform);
    }
    ImportNeverDiffers(FileFor(g), Holding(f), f);
  }

  lemma PlainLines(f: Form, platform: Platform)
    requires PlainForm(f, platform)
    ensures FormLines(f.settings) && TrimmedCommands(f.settings) == f.settings
  {
    hide SecretCommands, PlainList, ExportedList, Size, ExportedBuild;
    assert TrimAll([]) == [];
    match platform {
      case Android =>
      case Ios =>
      case Macos =>
    }
  }

  lemma NoOn(f: Form, platform: Platform)
    requires PlainForm(f, platform) && NormalizeLabels(f.settings.runsOn) == Some([])
    ensures FileOn(FileFor(Exported(f))).None?
  {
    hide NormalizeLabels, Exported, PlainForm, TargetEntries, Entries;
    PlainParts(f, platform);
  }

  /** A list with a blank pattern beside `*.apk`. */
  function BlankBesideApk(): Form {
    Form(Bare(Android).(artifacts := ["*.apk", " "]), None, false)
  }

  lemma ApkIsGood()
    ensures GoodPattern("*.apk") && Trim("*.apk") == "*.apk" && Size("*.apk") <= MAX_RAW_PATTERN_BYTES
  {
    hide GoodPattern, Trim, Utf8;
    JoinedPattern(["*.apk"]);
    assert Join(["*.apk"], "/") == "*.apk";
    AsciiSize("*.apk");
  }

  lemma ApkList()
    ensures ExportedList(["*.apk", " "]) == ["*.apk"]
  {
    hide Trim;
    ApkIsGood();
    OneBlank();
    var trimmed := TrimAll(["*.apk", " "]);
    assert trimmed == ["*.apk", []];
    assert trimmed[..1] == ["*.apk"] && trimmed[..1][..0] == [];
    assert NonEmpty(["*.apk"]) == ["*.apk"];
    assert NonEmpty(trimmed) == ["*.apk"];
    UniqueKept(["*.apk"]);
  }

  lemma BlankBesideIsPlain()
    ensures PlainForm(BlankBesideApk(), Android) && NoReferences(BlankBesideApk().settings.artifacts) && HasBlank(BlankBesideApk().settings.artifacts)
  {
    hide GoodPattern, Trim, Size, ExportedList, SecretsOnly, Contains, BaseCommand;
    var f := BlankBesideApk();
    ApkList();
    ApkIsGood();
    ShortCommand(Android);
    BareSecrets(Android);
    OneBlank();
    PlainHasNoMarks();
    assert IsBlank(f.settings.artifacts[1]);
    assert !Contains("*.apk", OPEN) by {
      GoodHasNoReference("*.apk");
    }
    assert PlainList(["*.apk"]);
  }

  lemma GoodHasNoReference(pattern: string)
    requires GoodPattern(pattern)
    ensures !Contains(pattern, OPEN)
  {
    hide Contains, IsArtifactPattern;
  }

  /** The editor's list has a blank pattern: the file lists `*.apk`, the editor's list is the
      one kept, and importing asks to report that it would build differently. */
  lemma BlankListImport()
    ensures
      var f := BlankBesideApk();
      var c, plan := FileFor(Exported(f)), PlanFor(Exported(f));
      && FormFile(c) && FileOk(c) && LowerConfig(c, None, None) == Some(plan) && Holdable(plan, Holding(f))
      && Check(plan, Form(DraftSettings(plan, false, Holding(f).settings), None, false), FileOn(c)) == CannotExport(BuildsDifferently)
  {
    hide PlainForm, HasBlank, NoReferences, ExportForm, Check, Holdable, FileOk, LowerConfig, FileFor, PlanFor, Exported, FormFile,
      DraftSettings, FileOn, BadSeam, NormalizeLabels;
    BlankBesideIsPlain();
    var f := BlankBesideApk();
    PlainLabels(f, Android);
    OwnFile(f, Android);
    PlainOutcome(f, Android);
  }

  /** An Android argument that is a blank, with Google Play on: the arguments are kept, and
      importing asks to report that it would build differently. */
  lemma BlankArgumentImport()
    ensures
      var f := TrailingBlank();
      var c, plan := FileFor(Exported(f)), PlanFor(Exported(f));
      && FormFile(c) && FileOk(c) && LowerConfig(c, None, None) == Some(plan) && Holdable(plan, Holding(f))
      && Check(plan, Form(DraftSettings(plan, true, Holding(f).settings), None, true), FileOn(c)) == CannotExport(BuildsDifferently)
  {
    hide PlainForm, HasBlank, ExportForm, Check, Holdable, FileOk, LowerConfig, FileFor, PlanFor, Exported, FormFile, DraftSettings, FileOn,
      BadSeam, NormalizeLabels;
    TrailingBlankIsPlain();
    var f := TrailingBlank();
    PlainLabels(f, Android);
    OwnFile(f, Android);
    TrailingBlankDiffers();
  }

  // ── A pattern of two lines ──────────────────────────────────────

  function TwoLines(): string {
    "a\n*"
  }

  /** A form whose one pattern has a line break in it. */
  function BrokenPattern(): Form {
    Form(Bare(Android).(artifacts := [TwoLines()]), None, false)
  }

  /** An editor that lists `*.apk`. */
  function ListsApk(): Settings {
    Bare(Android).(artifacts := ["*.apk"])
  }

  lemma TwoLinesIsPattern()
    ensures IsPattern(TwoLines()) && Trim(TwoLines()) == TwoLines() && Size(TwoLines()) <= MAX_RAW_PATTERN_BYTES
    ensures '$' !in TwoLines() && '\n' in TwoLines()
  {
    hide Split, Trim, Utf8;
    var pattern := TwoLines();
    assert pattern[1] == '\n' && IsWildcard(pattern[2]);
    SplitNothing(pattern, '/');
    assert pattern !in {"", ".", ".."};
    assert !IsSpace('a') && !IsSpace('*');
    TrimTrimmed(pattern);
    AsciiSize(pattern);
  }

  lemma TwoLinesIsGood()
    ensures GoodPattern(TwoLines()) && ExportedList([TwoLines()]) == [TwoLines()]
  {
    hide IsPattern, Trim, FindFrom, TwoLines, Size;
    var pattern := TwoLines();
    TwoLinesIsPattern();
    forall k
      ensures !OccursAt(pattern, OPEN, k)
    {
      if 0 <= k <= |pattern| - 3 {
        assert pattern[k..k + 3][0] == pattern[k] && OPEN[0] == '$';
      }
    }
    var list := [pattern];
    assert TrimAll(list) == list;
    NotEmptyPattern();
    assert list[..0] == [];
    assert NonEmpty(list) == list;
    UniqueKept(list);
  }

  lemma NotEmptyPattern()
    ensures TwoLines() != []
  {
  }

  lemma BrokenIsPlain()
    ensures PlainForm(BrokenPattern(), Android) && NoReferences(BrokenPattern().settings.artifacts)
  {
    hide GoodPattern, Trim, Size, ExportedList, SecretsOnly, Contains, BaseCommand, TwoLines, IsPattern;
    TwoLinesIsPattern();
    TwoLinesIsGood();
    ShortCommand(Android);
    BareSecrets(Android);
    GoodHasNoReference(TwoLines());
    assert PlainList([TwoLines()]);
  }

  /** Only the editor's commands and arguments decide what can be held. */
  lemma SameInputsHeld(plan: PipelinePlan, a: Context, b: Context)
    requires Holdable(plan, a) && HeldBy(a.settings) == HeldBy(b.settings) && (a.settings.Some? <==> b.settings.Some?) && a.play == b.play
    ensures Holdable(plan, b)
  {
    hide AllStepsHeld, GetsPackages, InFormOrder, AllEnvHeld, StepsOf, TargetInputsFor, HeldBy;
    var builds := StepsOf(plan.steps, Build);
    forall i | 0 <= i < |builds|
      ensures BuildHeld(builds[i], b)
    {
      assert BuildHeld(builds[i], a);
    }
  }

  lemma ListsApkIsField()
    ensures FieldSettings(ListsApk())
  {
    hide Trim, Size, GoodPattern, Before;
    ApkIsGood();
    TrimTrimmed("*.apk");
    assert Android in [Android] && Ios !in [Android] && Macos !in [Android];
    assert FieldText("*.apk", '\n');
  }

  /** The plan lists the pattern as it is. */
  lemma BrokenPlan()
    requires NormalizeLabels(BrokenPattern().settings.runsOn) == Some([])
    ensures Unique(TrimAll(PlanFor(Exported(BrokenPattern())).artifacts)) == [TwoLines()]
  {
    hide PlainForm, NoReferences, Exported, NormalizeLabels, Unique, TrimAll, PlanFor, ExportedList, TwoLines, IsPattern, Trim, Size;
    BrokenIsPlain();
    PlainParts(BrokenPattern(), Android);
    TwoLinesIsPattern();
    TwoLinesIsGood();
    ListKept(Exported(BrokenPattern()), [TwoLines()]);
  }

  lemma NotOneLine(patterns: seq<string>, pattern: string)
    requires Unique(TrimAll(patterns)) == [pattern] && '\n' in pattern
    ensures !OneLinePatterns(patterns)
  {
    hide Unique, Trim;
    assert pattern in Unique(TrimAll(patterns));
    assert pattern in TrimAll(patterns);
    var i :| 0 <= i < |patterns| && TrimAll(patterns)[i] == pattern;
    assert '\n' in Trim(patterns[i]);
  }

  /** The file lists a pattern of two lines. Nothing refuses it, and the form's field makes
      two patterns of it. */
  lemma BrokenPatternImport(customized: bool)
    ensures
      var c, plan := FileFor(Exported(BrokenPattern())), PlanFor(Exported(BrokenPattern()));
      var ctx := Context(Some(ListsApk()), None, false);
      && FormFile(c) && FileOk(c) && LowerConfig(c, None, None) == Some(plan) && FromForm(ctx.settings) && Holdable(plan, ctx)
      && var settings := DraftSettings(plan, false, ctx.settings); FromFields(ToFields(settings, customized)) != settings
  {
    hide PlainForm, NoReferences, ExportForm, Check, Holdable, FileOk, LowerConfig, FileFor, PlanFor, Exported, FormFile,
      DraftSettings, FileOn, NormalizeLabels, OneLinePatterns, FieldSettings, ToFields, FromFields, TwoLines, Unique, TrimAll, IsPattern,
      Trim, Size;
    var f := BrokenPattern();
    BrokenIsPlain();
    PlainLabels(f, Android);
    OwnFile(f, Android);
    var c, plan := FileFor(Exported(f)), PlanFor(Exported(f));
    var ctx := Context(Some(ListsApk()), None, false);
    SameInputsHeld(plan, Holding(f), ctx);
    ListsApkIsField();
    BrokenPlan();
    TwoLinesIsPattern();
    NotOneLine(plan.artifacts, TwoLines());
    ImportedComesBack(c, ctx, customized);
  }

  // ── A command whose derived name is too long ────────────────────

  function ShortName(): string {
    "Long"
  }

  /** A plain file with one more step: a short name, and a command of sixty three-byte
      characters. */
  ghost function WithLongStep(platform: Platform): Generated
    requires NormalizeLabels(Bare(platform).runsOn).Some?
  {
    Exported(Form(Bare(platform), None, false)).(after := [Step(ShortName(), NameFits.Euros(60))])
  }

  lemma BareIsPlain(platform: Platform)
    ensures PlainForm(Form(Bare(platform), None, false), platform) && NormalizeLabels(Bare(platform).runsOn) == Some([])
  {
    hide SecretsOnly, Size, BaseCommand, GoodPattern;
    ShortCommand(platform);
    BareSecrets(platform);
    NothingListed([]);
    NoLabels();
  }

  lemma ShortNameFits()
    ensures IsName(ShortName()) && StepNameFits(ShortName()) && Trim(ShortName()) == ShortName() != [] && ShortName()[0] == 'L'
  {
    hide Trim, Utf8;
    assert !IsSpace('L') && !IsSpace('g');
    TrimTrimmed(ShortName());
    AsciiSize(ShortName());
  }

  lemma FirstLetters(platform: Platform, names: set<string>)
    ensures BuildName(platform, None)[0] == 'B' && UniqueName(names, GetPackages()) != [] && UniqueName(names, GetPackages())[0] == 'G'
  {
    hide FreeFrom;
    FreeKeepsBase(names, GetPackages(), 1);
    assert GetPackages()[0] == 'G';
  }

  lemma LongCommandFits()
    ensures SecretsOnly(NameFits.Euros(60)) && Size(NameFits.Euros(60)) <= MAX_COMMAND_BYTES && !IsBlank(NameFits.Euros(60)) && OneLine(NameFits.Euros(60))
  {
    hide SecretsOnly, Utf8, StepName, StepNameFits, IsBlank;
    NoDollar(NameFits.Euros(60));
    NameFits.EurosSize(60);
    NameFits.LongDerivedName();
  }

  ghost predicate HasLongStep(g: Generated, platform: Platform) {
    && g.targets == [BuildTarget(platform, BaseCommand(platform))]
    && g.before == [PubGetStep(BuildNames(g.targets))] && g.after == [Step(ShortName(), NameFits.Euros(60))] && g.env == []
  }

  lemma LongParts(platform: Platform, g: Generated)
    requires NormalizeLabels(Bare(platform).runsOn) == Some([]) && g == WithLongStep(platform)
    ensures HasLongStep(g, platform)
  {
    hide NormalizeLabels, Exported, BuildNames, UniqueName, NameFits.Euros, ShortName, GetPackages, PubGet, PlainForm, BaseCommand,
      ExplicitList, ExportedList;
    var f := Form(Bare(platform), None, false);
    assert PlainForm(f, platform) by {
      BareIsPlain(platform);
    }
    PlainParts(f, platform);
    assert ExportedBuild(f.settings, platform, false) == BaseCommand(platform);
  }

  /** Its own step has a name of its own. */
  lemma LongNames(platform: Platform, g: Generated)
    requires HasLongStep(g, platform)
    ensures OwnNames(BuildNames(g.targets), g.before + g.after)
  {
    hide BuildNames, UniqueName, NameFits.Euros, IsName, ShortName, BuildName, GetPackages, PubGet, BaseCommand, StepNameFits, Trim,
      SecretsOnly;
    ShortNameFits();
    var names := BuildNames(g.targets);
    FirstLetters(platform, names);
    PubGetFacts();
    UniqueIsName(names, GetPackages());
    assert ShortName() !in names by {
      OnlyBuild(g.targets, platform);
    }
    var first, last := PubGetStep(names), Step(ShortName(), NameFits.Euros(60));
    assert g.before + g.after == [first, last];
    assert first.name[0] == 'G' && last.name[0] == 'L';
  }

  lemma OnlyBuild(targets: seq<BuildTarget>, platform: Platform)
    requires |targets| == 1 && targets[0].platform == platform
    ensures forall name :: name in BuildNames(targets) ==> name == BuildName(platform, None)
  {
    hide BuildName;
  }

  lemma LongFileIsOk(platform: Platform, g: Generated)
    requires NormalizeLabels(Bare(platform).runsOn) == Some([]) && g == WithLongStep(platform)
    ensures FormFile(FileFor(g)) && FileOk(FileFor(g)) && LowerConfig(FileFor(g), None, None) == Some(PlanFor(g))
  {
    hide NormalizeLabels, Exported, BuildNames, UniqueName, NameFits.Euros, IsName, ShortName, GetPackages, PubGet, PlainForm, LowerConfig,
      FileOk, DistinctSteps, ClearOfBuilds, SecretsOnly, Size, IsBlank, StepNameFits, DefaultsFor, GoodPatterns, OwnNames, ExportedBuild,
      GeneratedFits, Plannable, PlanFor;
    var f := Form(Bare(platform), None, false);
    assert PlainForm(f, platform) by {
      BareIsPlain(platform);
    }
    PlainParts(f, platform);
    PlainFits(f, platform);
    PlainPlans(f, platform);
    LongParts(platform, g);
    LongNames(platform, g);
    OwnNamesPlannable(g.targets, g.before + g.after);
    ShortNameFits();
    LongCommandFits();
    assert g.targets == Exported(f).targets && g.before == Exported(f).before && g.env == Exported(f).env && g.artifacts == Exported(f).artifacts;
    MorePlannable(Exported(f), g);
    MoreFits(Exported(f), g);
    GeneratedFileOk(g);
    GeneratedPlan(g);
  }

  lemma MorePlannable(h: Generated, g: Generated)
    requires Plannable(h) && g == h.(after := g.after) && SecretSteps(g.after)
    requires DistinctSteps(g.before + g.after) && ClearOfBuilds(g.before + g.after, g.targets)
    ensures Plannable(g)
  {
    hide SecretsOnly, DistinctSteps, ClearOfBuilds, GoodPatterns;
  }

  lemma MoreFits(h: Generated, g: Generated)
    requires GeneratedFits(h) && g == h.(after := g.after) && |g.before| == 1 && |g.after| == 1 && h.after == []
    requires StepNameFits(g.after[0].name) && Size(g.after[0].run) <= MAX_COMMAND_BYTES && !IsBlank(g.after[0].run)
    ensures GeneratedFits(g)
  {
    hide StepNameFits, Size, IsBlank, KeysOk, DistinctTargets, BuildsFit, ListFits, TriggersOk, TriggersSizeOk, OffsetOk, NormalizeLabels;
    assert h.before + h.after == h.before;
    var steps := g.before + g.after;
    assert steps[0] == h.before[0] == (h.before + h.after)[0] && steps[1] == g.after[0];
  }

  lemma BaseIsOneLine(platform: Platform)
    ensures OneLine(BaseCommand(platform))
  {
  }

  lemma TrimmedOneLine(text: string)
    requires OneLine(text)
    ensures OneLine(Trim(text))
  {
    hide Trim, IsSpace;
    var lead := TrimLead(text);
    assert forall i :: 0 <= i < |Trim(text)| ==> Trim(text)[i] == text[lead + i];
  }

  /** Inputs that are an override hold the build itself. */
  lemma OverrideIsBuild(platform: Platform, build: string, play: bool)
    ensures
      var inputs := TargetInputsFor(platform, build, play, None);
      inputs.command.Some? ==> inputs.command.value == build
  {
    hide Render, ArgsFrom, Trim;
  }

  lemma LongPhases(platform: Platform, g: Generated)
    requires HasLongStep(g, platform)
    ensures
      var plan := PlanFor(g);
      && RunsOfSteps(StepsOf(plan.steps, PreBuild)) == [PubGet()] && RunsOfSteps(StepsOf(plan.steps, PostBuild)) == [NameFits.Euros(60)]
      && StepsOf(plan.steps, Build) == [PlanStep(BuildName(platform, None), Build, Trim(BaseCommand(platform)), Some(platform), None)]
      && plan.steps == StepsIn(PreBuild, g.before) + BuildsOf(g.targets) + StepsIn(PostBuild, g.after)
      && plan.env == [] && plan.platforms == [platform]
  {
    hide NormalizeLabels, BuildNames, NameFits.Euros, ShortName, GetPackages, PubGet, StepsOf, Trim, BuildName, BaseCommand, Unique, Concat,
      PatternLists, UniqueName;
    GeneratedPhases(g);
    LongTrimmed();
    PubGetIsTrimmed();
    assert PlatformsOf(g) == [platform];
  }

  lemma LongPlanHoldable(platform: Platform, g: Generated, ctx: Context)
    requires HasLongStep(g, platform) && ctx == Context(None, None, false)
    ensures Holdable(PlanFor(g), ctx)
    ensures RunsOfSteps(StepsOf(PlanFor(g).steps, PostBuild)) == [NameFits.Euros(60)]
  {
    hide HasLongStep, PlanFor, RunsOfSteps, StepsOf, PubGet, BaseCommand, BuildName, TargetInputsFor, Trim, OneLine, InFormOrder,
      AllStepsHeld, NameFits.Euros;
    LongPhases(platform, g);
    LongStepsHeld(platform, g);
    OneInOrder(platform);
    BaseIsOneLine(platform);
    TrimmedOneLine(BaseCommand(platform));
    OverrideIsBuild(platform, Trim(BaseCommand(platform)), false);
  }

  lemma LongStepsHeld(platform: Platform, g: Generated)
    requires HasLongStep(g, platform)
    ensures AllStepsHeld(PlanFor(g).steps)
  {
    hide HasLongStep, PlanFor, StepsOf, PubGet, BaseCommand, BuildName, Trim, OneLine, AllStepsHeld, NameFits.Euros, BuildsOf, StepsIn,
      SecretsOnly, Size, IsBlank;
    GeneratedPhases(g);
    LongPhases(platform, g);
    LongCommandFits();
    PubGetIsOneLine();
    OthersHeld(StepsIn(PreBuild, g.before), [PubGet()]);
    OthersHeld(StepsIn(PostBuild, g.after), [NameFits.Euros(60)]);
    BuildsHeldAsSteps(g.targets);
    StepsHeldConcat(StepsIn(PreBuild, g.before), BuildsOf(g.targets));
    StepsHeldConcat(StepsIn(PreBuild, g.before) + BuildsOf(g.targets), StepsIn(PostBuild, g.after));
  }

  lemma OneInOrder(platform: Platform)
    ensures InFormOrder([platform]) == [platform]
  {
    match platform {
      case Android =>
      case Ios =>
      case Macos =>
    }
  }

  /** A valid file whose one step has a short name and a command of sixty three-byte
      characters: the form would name the step after the command, beyond the limit. */
  lemma LongNameImport(platform: Platform)
    ensures NormalizeLabels(Bare(platform).runsOn).Some?
    ensures
      var g, ctx := WithLongStep(platform), Context(None, None, false);
      var c, plan := FileFor(g), PlanFor(g);
      && FormFile(c) && FileOk(c) && LowerConfig(c, None, None) == Some(plan) && Holdable(plan, ctx)
      && Check(plan, Form(DraftSettings(plan, false, None), None, false), FileOn(c)) == CannotExport(InvalidFile)
  {
    hide NormalizeLabels, WithLongStep, FormFile, FileOk, LowerConfig, Holdable, Check, FileOn, DraftSettings, NameFits.NamesFit,
      WrittenSteps, BuildsFitIn, PatternsIn, PlanFor, FileFor, StepsOf, RunsOfSteps, PlatformDefaults, KeepsBlank, KeepsSeam,
      NameFits.Euros, HasLongStep;
    BareIsPlain(platform);
    var g, ctx := WithLongStep(platform), Context(None, None, false);
    var c, plan := FileFor(g), PlanFor(g);
    LongFileIsOk(platform, g);
    LongParts(platform, g);
    LongPlanHoldable(platform, g, ctx);
    LongWritten(plan);
    var f := Form(DraftSettings(plan, false, None), None, false);
    assert FileOn(c).None? by {
      NoLongOn(platform, g);
    }
    ImportOutcome.ImportOutcome(c, ctx, f);
  }

  lemma NoLongOn(platform: Platform, g: Generated)
    requires NormalizeLabels(Bare(platform).runsOn) == Some([]) && g == WithLongStep(platform)
    ensures FileOn(FileFor(g)).None?
  {
    hide NormalizeLabels, Exported, PlainForm, TargetEntries, Entries;
    BareIsPlain(platform);
    PlainParts(Form(Bare(platform), None, false), platform);
  }

  lemma LongWritten(plan: PipelinePlan)
    requires RunsOfSteps(StepsOf(plan.steps, PostBuild)) == [NameFits.Euros(60)]
    ensures !NameFits.NamesFit(WrittenSteps(plan))
  {
    hide NameFits.NamesFit, StepsFor, StepsBefore, StepsOf, RunsOfSteps, BuildNames, StepNameSet, NameFits.Euros;
    var pre := RunsOfSteps(StepsOf(plan.steps, PreBuild));
    var names := BuildNames(PlainTargets(plan.platforms));
    var before := StepsBefore(names, true, if pre == [] then [] else pre[1..]);
    LongStep(names + StepNameSet(before), before);
  }
}

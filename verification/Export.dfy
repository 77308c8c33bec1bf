/** Exporting a pipeline's form settings as a version 2 file keeps what they do. */
module Export {
  import opened Wrappers
  import opened Text
  import opened References
  import opened StepNames
  import opened SecretText
  import opened Plan
  import opened Labels
  import opened Lower
  import opened FileChecks
  import opened GeneratedFile
  import opened GeneratedChecks
  import opened GeneratedBehaviour
  import opened GeneratedNeeds
  import opened UserSteps
  import opened NameFits
  import opened Convert
  import opened ExportSteps
  import Triggers

  /** The settings, the trigger settings if the file gets an `on`, and whether the
      pipeline uploads to Google Play. */
  datatype Form = Form(settings: Settings, triggers: Option<Triggers.Settings>, play: bool)

  // ── The exported file ───────────────────────────────────────────

  function ExportedBuild(s: Settings, platform: Platform, play: bool): string {
    var build := PlatformCommand(s, platform);
    if BuildsBundle(s, platform, play) then build + " && " + BundleCommand(s) else build
  }

  function ExportedTargets(f: Form): (targets: seq<BuildTarget>)
    ensures |targets| == |f.settings.platforms|
    ensures forall i :: 0 <= i < |targets| ==>
      targets[i] == BuildTarget(f.settings.platforms[i], ExportedBuild(f.settings, f.settings.platforms[i], f.play))
  {
    seq(|f.settings.platforms|, i requires 0 <= i < |f.settings.platforms| =>
      BuildTarget(f.settings.platforms[i], ExportedBuild(f.settings, f.settings.platforms[i], f.play)))
  }

  function NonEmpty(texts: seq<string>): (r: seq<string>)
    ensures forall x :: x in r <==> x in texts && x != []
  {
    if texts == [] then []
    else
      var init, last := NonEmpty(texts[..|texts| - 1]), texts[|texts| - 1];
      assert texts == texts[..|texts| - 1] + [last];
      if last == [] then init else init + [last]
  }

  function ExportedList(patterns: seq<string>): seq<string> {
    Unique(NonEmpty(TrimAll(patterns)))
  }

  /** `on`, unless the trigger settings cannot be said in a file. */
  function ExportedOn(triggers: Option<Triggers.Settings>): Option<Triggers.OnSpec> {
    if triggers.None? || !Triggers.MapTriggers(triggers.value).Mapped? then None else Some(Triggers.MapTriggers(triggers.value).on)
  }

  function WrittenOn(on: Option<Triggers.OnSpec>): Option<Triggers.TriggerSpec> {
    if on.None? then None else Some(Triggers.SpecOf(on.value))
  }

  function StepsAfter(names: set<string>, build: seq<string>, post: seq<string>): seq<Step> {
    var first := StepsFor(names, build);
    first + StepsFor(names + StepNameSet(first), post)
  }

  predicate Exportable(f: Form) {
    && f.settings.platforms != [] && DistinctPlatforms(f.settings.platforms)
    && NoReferences(f.settings.artifacts) && NormalizeLabels(f.settings.runsOn).Some?
  }

  function Exported(f: Form): Generated
    requires NormalizeLabels(f.settings.runsOn).Some?
  {
    var s := f.settings;
    var targets := ExportedTargets(f);
    var names := BuildNames(targets);
    var before := StepsBefore(names, true, s.preBuild);
    Generated(
      TrimmedVersion(s.flutterVersion), targets, ExplicitList(ExportedList(s.artifacts), targets),
      before, StepsAfter(names + StepNameSet(before), s.build, s.postBuild), EnvPairs(s.env), WrittenOn(ExportedOn(f.triggers)),
      NormalizeLabels(s.runsOn).value, s.isolation, s.offset)
  }

  // ── The exported file, step by step ─────────────────────────────

  lemma NonEmptyWith(texts: seq<string>, text: string)
    ensures NonEmpty(texts + [text]) == if text == [] then NonEmpty(texts) else NonEmpty(texts) + [text]
  {
    var all := texts + [text];
    assert all[..|all| - 1] == texts;
  }

  lemma ListWith(patterns: seq<string>, i: nat)
    requires i < |patterns|
    ensures
      var before, pattern := ExportedList(patterns[..i]), Trim(patterns[i]);
      ExportedList(patterns[..i + 1]) == if pattern == [] || pattern in before then before else before + [pattern]
  {
    hide Trim, Unique, NonEmpty;
    assert patterns[..i + 1] == patterns[..i] + [patterns[i]];
    TrimAllWith(patterns[..i], patterns[i]);
    NonEmptyWith(TrimAll(patterns[..i]), Trim(patterns[i]));
    UniqueWith(NonEmpty(TrimAll(patterns[..i])), Trim(patterns[i]));
  }

  /** Non-blank patterns, each once, refused when one holds a reference. */
  method CollectNonBlank(patterns: seq<string>) returns (r: Option<seq<string>>)
    ensures r == if NoReferences(patterns) then Some(ExportedList(patterns)) else None
  {
    hide Trim, Contains, ExportedList;
    var artifacts := [];
    NothingListed(patterns);
    for i := 0 to |patterns|
      invariant forall k :: 0 <= k < i ==> !Contains(patterns[k], OPEN)
      invariant artifacts == ExportedList(patterns[..i])
    {
      if Contains(patterns[i], OPEN) {
        return None;
      }
      var pattern := Trim(patterns[i]);
      ListWith(patterns, i);
      if pattern != [] && pattern !in artifacts {
        artifacts := artifacts + [pattern];
      }
    }
    assert patterns[..|patterns|] == patterns;
    r := Some(artifacts);
  }

  lemma NothingListed(patterns: seq<string>)
    ensures ExportedList(patterns[..0]) == []
  {
    assert TrimAll(patterns[..0]) == [];
  }

  method CollectExportedTargets(f: Form) returns (targets: seq<BuildTarget>)
    ensures targets == ExportedTargets(f)
  {
    hide PlatformCommand, BundleCommand;
    var s := f.settings;
    targets := [];
    for i := 0 to |s.platforms|
      invariant targets == ExportedTargets(f)[..i]
    {
      var platform := s.platforms[i];
      var build := PlatformCommand(s, platform);
      if platform.Android? && f.play && s.commands.android.None? {
        build := build + " && " + BundleCommand(s);
      }
      targets := targets + [BuildTarget(platform, build)];
    }
  }

  /** `export_form_settings` up to its own check. */
  method ExportSettings(f: Form) returns (r: Option<Generated>)
    ensures r == if Exportable(f) then Some(Exported(f)) else None
  {
    hide ExportedTargets, DistinctPlatforms, NoReferences, StepsFor, Unique, ExportedList, DefaultsFor, BuildNames, StepNameSet,
      TrimmedVersion, UniqueName, PubGet, GetPackages, NormalizeLabels, Triggers.MapTriggers, Triggers.SpecOf;
    var s := f.settings;
    if s.platforms == [] {
      return None;
    }
    var distinct := CheckPlatforms(s.platforms);
    if !distinct {
      return None;
    }
    var targets := CollectExportedTargets(f);
    var list := CollectNonBlank(s.artifacts);
    if list.None? {
      return None;
    }
    var defaults := CollectDefaults(targets);
    var artifacts := if list.value == [] then defaults else list.value;
    var names := BuildNames(targets);
    ghost var start := names;
    var name;
    name, names := TakeUniqueName(names, GetPackages());
    var first := [Step(name, PubGet())];
    NamesOfOne(start, first);
    var pre, builds, post;
    pre, names := NameSteps(names, s.preBuild);
    NamesConcat(start, first, pre);
    builds, names := NameSteps(names, s.build);
    post, names := NameSteps(names, s.postBuild);
    var on := None;
    if f.triggers.Some? {
      var mapped := Triggers.MapTriggers(f.triggers.value);
      if mapped.Mapped? {
        on := Some(mapped.on);
      }
    }
    var labels := NormalizeLabels(s.runsOn);
    if labels.None? {
      return None;
    }
    r := Some(Generated(
      TrimmedVersion(s.flutterVersion), targets, if artifacts != defaults then Some(artifacts) else None,
      first + pre, builds + post, EnvPairs(s.env), WrittenOn(on), labels.value, s.isolation, s.offset));
  }

  // ── `export_form_settings` and its own check ────────────────────

  /** `expected_behaviour`. */
  function ExpectedOfForm(f: Form): Behaviour
    requires NormalizeLabels(f.settings.runsOn).Some?
  {
    var b := BehaviourOf(PlanSettings(f.settings, true, f.play));
    b.(steps := MergeAll([], b.steps), runsOn := NormalizeLabels(f.settings.runsOn).value,
       artifacts := if b.artifacts == [] then DefaultsFor(ExportedTargets(f)) else b.artifacts)
  }

  /** The file, or why there is none. */
  datatype Outcome = Refused | InvalidFile | BuildsDifferently | TriggersDifferently | Ok

  ghost function ExportForm(f: Form): Outcome {
    if !Exportable(f) then Refused
    else
      var file := FileFor(Exported(f));
      if !FileOk(file) then InvalidFile
      else if BehaviourOf(LowerConfig(file, None, None).value) != ExpectedOfForm(f) then BuildsDifferently
      else if (if file.on.None? then None else Some(Triggers.OnOf(file.on.value))) != ExportedOn(f.triggers) then TriggersDifferently
      else Ok
  }

  // ── Names and texts ─────────────────────────────────────────────

  lemma AfterNames(names: set<string>, build: seq<string>, post: seq<string>)
    ensures OwnNames(names, StepsAfter(names, build, post))
  {
    hide OwnNames, StepsFor, StepNameSet;
    var first := StepsFor(names, build);
    StepsForAre(names, build);
    StepsForAre(names + StepNameSet(first), post);
    OwnNamesConcat(names, first, StepsFor(names + StepNameSet(first), post));
  }

  lemma ExportedNames(f: Form)
    requires NormalizeLabels(f.settings.runsOn).Some?
    ensures
      var g := Exported(f);
      OwnNames(BuildNames(g.targets), g.before + g.after)
  {
    hide OwnNames, StepsBefore, StepsAfter, BuildNames, StepNameSet, ExportedTargets, Unique, ExplicitList, TrimmedVersion, NormalizeLabels,
      ExportedOn, EnvPairs, ExportedList;
    var names := BuildNames(ExportedTargets(f));
    var before := StepsBefore(names, true, f.settings.preBuild);
    BeforeNames(names, true, f.settings.preBuild);
    AfterNames(names + StepNameSet(before), f.settings.build, f.settings.postBuild);
    OwnNamesConcat(names, before, StepsAfter(names + StepNameSet(before), f.settings.build, f.settings.postBuild));
  }

  lemma ListHasNoReferences(patterns: seq<string>)
    requires NoReferences(patterns)
    ensures forall i :: 0 <= i < |ExportedList(patterns)| ==> !Contains(ExportedList(patterns)[i], OPEN)
  {
    hide Contains, Trim, Unique, NonEmpty;
    var list := ExportedList(patterns);
    forall i | 0 <= i < |list|
      ensures !Contains(list[i], OPEN)
    {
      assert list[i] in NonEmpty(TrimAll(patterns));
      assert list[i] in TrimAll(patterns);
      var k :| 0 <= k < |patterns| && Trim(patterns[k]) == list[i];
      TrimmedHasNoMore(patterns[k], OPEN);
    }
  }

  /** The exported file is valid exactly when its texts are secret text and its parts fit. */
  lemma ExportedFileOk(f: Form)
    requires Exportable(f)
    ensures FileOk(FileFor(Exported(f))) <==> Plannable(Exported(f)) && GeneratedFits(Exported(f))
    ensures FileOk(FileFor(Exported(f))) ==> LowerConfig(FileFor(Exported(f)), None, None) == Some(PlanFor(Exported(f)))
  {
    hide StepsBefore, StepsAfter, BuildNames, StepNameSet, ExportedTargets, ExportedList, TrimmedVersion, NormalizeLabels, ExportedOn,
      WrittenOn, EnvPairs, DefaultsFor, NoReferences, DistinctPlatforms, OwnNames, Plannable, GeneratedFits, SizeOk, ShapeOk, LowerConfig,
      FileFor, PlanFor, DistinctSteps, ClearOfBuilds, Contains;
    var g := Exported(f);
    ExportedNames(f);
    OwnNamesPlannable(g.targets, g.before + g.after);
    ListHasNoReferences(f.settings.artifacts);
    if FileOk(FileFor(g)) {
      GeneratedNeedsSecrets(g);
    }
    if Plannable(g) {
      GeneratedFileOk(g);
      GeneratedPlan(g);
    }
  }

  // ── Behaviour ───────────────────────────────────────────────────

  lemma AfterRun(names: set<string>, build: seq<string>, post: seq<string>)
    ensures Did(PostBuild, StepsAfter(names, build, post)) == Runs(PostBuild, UserCommands(build)) + Runs(PostBuild, UserCommands(post))
  {
    hide Did, Runs, StepsFor, UserCommands, StepNameSet;
    var first := StepsFor(names, build);
    DidConcat(PostBuild, first, StepsFor(names + StepNameSet(first), post));
    UserStepsRun(PostBuild, names, build);
    UserStepsRun(PostBuild, names + StepNameSet(first), post);
  }

  /** The steps of the exported file. */
  lemma ExportedSteps(f: Form)
    requires NormalizeLabels(f.settings.runsOn).Some?
    ensures Steps(PlanFor(Exported(f)).steps)
      == Runs(PreBuild, UserCommands([PubGet()]) + UserCommands(f.settings.preBuild)) + Built(ExportedTargets(f))
       + (Runs(PostBuild, UserCommands(f.settings.build)) + Runs(PostBuild, UserCommands(f.settings.postBuild)))
  {
    hide Steps, Did, Built, Runs, UserCommands, PubGet, TrimmedVersion, Unique, ExportedTargets, StepsBefore, StepsAfter, BuildNames,
      StepNameSet, ExplicitList, ExportedList, PlanFor, NormalizeLabels, ExportedOn;
    var g := Exported(f);
    var names := BuildNames(g.targets);
    GeneratedSteps(g);
    BeforeRun(names, true, f.settings.preBuild);
    AfterRun(names + StepNameSet(g.before), f.settings.build, f.settings.postBuild);
  }

  /** The expected steps. */
  lemma ExpectedSteps(f: Form)
    requires Exportable(f)
    ensures ExpectedOfForm(f).steps
      == Runs(PreBuild, UserCommands([PubGet()]) + UserCommands(f.settings.preBuild)) + MergedBuilds(f.settings, f.settings.platforms, f.play)
       + (Runs(PostBuild, UserCommands(f.settings.build)) + Runs(PostBuild, UserCommands(f.settings.postBuild)))
  {
    hide Steps, Runs, UserCommands, PubGet, TrimmedVersion, TrimmedEnv, Unique, TrimAll, DefaultsFor, PlanSettings, NormalizeLabels,
      MergeAll, AllPlatformBuilds, MergedBuilds, NoReferences;
    SettingsRun(f.settings, true, f.play);
    MergedForm(f.settings, UserCommands([PubGet()]) + UserCommands(f.settings.preBuild), f.play);
  }

  /** The Play bundle follows a command that ends in a blank. */
  predicate BadSeam(f: Form) {
    && f.play && Android in f.settings.platforms && f.settings.commands.android.None?
    && Trim(PlatformCommand(f.settings, Android)) != PlatformCommand(f.settings, Android)
  }

  lemma BuildMerged(s: Settings, platform: Platform, play: bool)
    ensures Trim(ExportedBuild(s, platform, play)) == MergedRun(s, platform, play)
      <==> (BuildsBundle(s, platform, play) ==> Trim(PlatformCommand(s, Android)) == PlatformCommand(s, Android))
  {
    hide Trim, PlatformCommand, BundleCommand;
    if BuildsBundle(s, platform, play) {
      SeamExact(s);
    }
  }

  lemma BuildsMerged(f: Form)
    ensures Built(ExportedTargets(f)) == MergedBuilds(f.settings, f.settings.platforms, f.play) <==> !BadSeam(f)
  {
    hide Trim, PlatformCommand, ExportedBuild, MergedRun;
    var s, platforms := f.settings, f.settings.platforms;
    var built, merged := Built(ExportedTargets(f)), MergedBuilds(s, platforms, f.play);
    forall i | 0 <= i < |platforms|
      ensures built[i] == merged[i] <==> (BuildsBundle(s, platforms[i], f.play) ==> Trim(PlatformCommand(s, Android)) == PlatformCommand(s, Android))
    {
      BuildMerged(s, platforms[i], f.play);
    }
    if BadSeam(f) {
      var i :| 0 <= i < |platforms| && platforms[i] == Android;
      assert built[i] != merged[i];
    }
  }

  lemma MiddleSame<T>(a: seq<T>, x: seq<T>, y: seq<T>, b: seq<T>)
    requires |x| == |y|
    ensures a + x + b == a + y + b <==> x == y
  {
    if a + x + b == a + y + b {
      assert x == (a + x + b)[|a|..|a| + |x|];
      assert y == (a + y + b)[|a|..|a| + |y|];
    }
  }

  lemma StepsSame(f: Form)
    requires Exportable(f)
    ensures Steps(PlanFor(Exported(f)).steps) == ExpectedOfForm(f).steps <==> !BadSeam(f)
  {
    hide Steps, Built, Runs, UserCommands, PubGet, MergedBuilds, PlanFor, Exported, ExpectedOfForm, NormalizeLabels, NoReferences,
      DistinctPlatforms, BadSeam;
    ExportedSteps(f);
    ExpectedSteps(f);
    BuildsMerged(f);
    MiddleSame(
      Runs(PreBuild, UserCommands([PubGet()]) + UserCommands(f.settings.preBuild)), Built(ExportedTargets(f)),
      MergedBuilds(f.settings, f.settings.platforms, f.play),
      Runs(PostBuild, UserCommands(f.settings.build)) + Runs(PostBuild, UserCommands(f.settings.postBuild)));
  }

  // ── Artifacts ───────────────────────────────────────────────────

  predicate HasBlank(patterns: seq<string>) {
    exists i :: 0 <= i < |patterns| && IsBlank(patterns[i])
  }

  lemma {:induction false} NonEmptyKept(texts: seq<string>)
    requires [] !in texts
    ensures NonEmpty(texts) == texts
  {
    if texts != [] {
      var init := texts[..|texts| - 1];
      assert texts == init + [texts[|texts| - 1]];
      NonEmptyKept(init);
    }
  }

  lemma ListTrimmed(patterns: seq<string>)
    ensures Trimmed(ExportedList(patterns)) && Distinct(ExportedList(patterns)) && [] !in ExportedList(patterns)
  {
    hide Trim, Unique, NonEmpty;
    var kept := NonEmpty(TrimAll(patterns));
    forall i | 0 <= i < |kept|
      ensures Trim(kept[i]) == kept[i]
    {
      assert kept[i] in TrimAll(patterns);
      var k :| 0 <= k < |patterns| && Trim(patterns[k]) == kept[i];
      TrimTwice(patterns[k]);
    }
    UniqueTrimmed(kept);
  }

  lemma BlankInList(patterns: seq<string>)
    ensures HasBlank(patterns) <==> [] in Unique(TrimAll(patterns))
    ensures !HasBlank(patterns) ==> Unique(TrimAll(patterns)) == ExportedList(patterns)
  {
    hide Trim, Unique, NonEmpty;
    var trimmed := TrimAll(patterns);
    if HasBlank(patterns) {
      var i :| 0 <= i < |patterns| && IsBlank(patterns[i]);
      assert trimmed[i] == [];
    } else {
      assert [] !in trimmed;
      NonEmptyKept(trimmed);
    }
  }

  lemma {:induction false} NoEmptyIn(lists: seq<seq<string>>)
    requires forall i :: 0 <= i < |lists| ==> [] !in lists[i]
    ensures [] !in Concat(lists)
  {
    if lists != [] {
      NoEmptyIn(lists[1..]);
    }
  }

  lemma DefaultsHaveNoEmpty(targets: seq<BuildTarget>)
    ensures [] !in DefaultsFor(targets)
  {
    hide Unique, DefaultArtifacts, GoodPattern, Concat;
    var lists := DefaultLists(targets);
    forall i | 0 <= i < |lists|
      ensures [] !in lists[i]
    {
      DefaultsAreGood(targets[i].platform);
      GoodIsNotEmpty(lists[i]);
    }
    NoEmptyIn(lists);
  }

  lemma GoodIsNotEmpty(patterns: seq<string>)
    requires GoodPatterns(patterns)
    ensures [] !in patterns
  {
    hide Split, Size, Contains;
    forall i | 0 <= i < |patterns|
      ensures patterns[i] != []
    {
      assert GoodPattern(patterns[i]);
    }
  }

  lemma ArtifactsSame(f: Form, g: Generated, expected: seq<string>)
    requires g.targets != [] && g.artifacts == ExplicitList(ExportedList(f.settings.artifacts), g.targets)
    requires
      var all := Unique(TrimAll(f.settings.artifacts));
      expected == if all == [] then DefaultsFor(g.targets) else all
    ensures Unique(TrimAll(PlanFor(g).artifacts)) == expected <==> !HasBlank(f.settings.artifacts)
  {
    hide Unique, TrimAll, ExportedList, DefaultsFor, ExplicitList, HasBlank, PlanFor, Trimmed, Distinct;
    ListTrimmed(f.settings.artifacts);
    ListKept(g, ExportedList(f.settings.artifacts));
    BlankInList(f.settings.artifacts);
    DefaultsHaveNoEmpty(g.targets);
  }

  // ── The outcome ─────────────────────────────────────────────────

  lemma RestSame(f: Form)
    requires Exportable(f)
    ensures
      var a, b := BehaviourOf(PlanFor(Exported(f))), ExpectedOfForm(f);
      && a.platforms == b.platforms && a.flutterVersion == b.flutterVersion && a.env == b.env
      && a.offset == b.offset && a.runsOn == b.runsOn && a.isolation == b.isolation
  {
    hide Steps, TrimmedEnv, Unique, TrimAll, StepsBefore, StepsAfter, BuildNames, StepNameSet, DefaultsFor, NormalizeLabels, EnvOf, StepsIn,
      BuildsOf, Concat, PatternLists, MergeAll, ExplicitList, ExportedList, ExportedBuild, ExportedOn, EnvPairs, NoReferences,
      DistinctPlatforms, Plan.Named, AllPlatformBuilds, UserCommands;
    var g := Exported(f);
    EnvKept(f.settings.env);
    VersionKept(f.settings.flutterVersion);
    NormalizedLabels(f.settings.runsOn);
    assert PlatformsOf(g) == f.settings.platforms;
  }

  /** The file does what is expected exactly when no artifact pattern is blank and the
      Play bundle does not follow a trailing blank. */
  lemma ExportedBehaviour(f: Form)
    requires Exportable(f)
    ensures BehaviourOf(PlanFor(Exported(f))) == ExpectedOfForm(f) <==> !BadSeam(f) && !HasBlank(f.settings.artifacts)
  {
    hide Steps, TrimmedEnv, TrimmedVersion, Unique, TrimAll, StepsBefore, StepsAfter, BuildNames, StepNameSet, DefaultsFor, NormalizeLabels,
      PlanFor, MergeAll, ExplicitList, ExportedList, ExportedBuild, ExportedOn, EnvPairs, NoReferences, DistinctPlatforms, BadSeam,
      HasBlank, PlanSettings;
    StepsSame(f);
    RestSame(f);
    ExpectedPatterns(f);
    ArtifactsSame(f, Exported(f), ExpectedOfForm(f).artifacts);
  }

  lemma ExpectedPatterns(f: Form)
    requires Exportable(f)
    ensures
      var all := Unique(TrimAll(f.settings.artifacts));
      && ExpectedOfForm(f).artifacts == (if all == [] then DefaultsFor(Exported(f).targets) else all)
      && Exported(f).targets != []
      && Exported(f).artifacts == ExplicitList(ExportedList(f.settings.artifacts), Exported(f).targets)
  {
    hide Steps, TrimmedEnv, TrimmedVersion, Unique, TrimAll, StepsBefore, StepsAfter, BuildNames, StepNameSet, DefaultsFor, NormalizeLabels,
      MergeAll, ExplicitList, ExportedList, ExportedOn, EnvPairs, NoReferences, DistinctPlatforms, Plan.Named, AllPlatformBuilds,
      UserCommands, ExportedBuild;
  }

  lemma WrittenOnReadsBack(f: Form)
    ensures
      var on := WrittenOn(ExportedOn(f.triggers));
      (if on.None? then None else Some(Triggers.OnOf(on.value))) == ExportedOn(f.triggers)
  {
    if ExportedOn(f.triggers).Some? {
      Triggers.OnOfSpec(f.triggers.value);
    }
  }

  /** Of every form that is not refused and whose file is valid, exporting fails exactly for
      blank artifact patterns and blanks before the Play bundle; a file is never reported to
      trigger differently. */
  lemma ExportOutcome(f: Form)
    ensures ExportForm(f) ==
      if !Exportable(f) then Refused
      else if !(Plannable(Exported(f)) && GeneratedFits(Exported(f))) then InvalidFile
      else if BadSeam(f) || HasBlank(f.settings.artifacts) then BuildsDifferently
      else Ok
  {
    hide Exportable, Exported, Plannable, GeneratedFits, FileOk, BehaviourOf, LowerConfig, PlanFor, ExpectedOfForm, BadSeam, HasBlank,
      NormalizeLabels, Triggers.OnOf, Triggers.MapTriggers, FileFor;
    if Exportable(f) {
      assert NormalizeLabels(f.settings.runsOn).Some? && FileFor(Exported(f)).on == WrittenOn(ExportedOn(f.triggers)) by {
        ExportedParts(f);
      }
      ExportedFileOk(f);
      ExportedBehaviour(f);
      WrittenOnReadsBack(f);
    }
  }

  lemma ExportedParts(f: Form)
    requires Exportable(f)
    ensures NormalizeLabels(f.settings.runsOn).Some? && FileFor(Exported(f)).on == WrittenOn(ExportedOn(f.triggers))
  {
    hide StepsBefore, StepsAfter, BuildNames, StepNameSet, DefaultsFor, NormalizeLabels, ExplicitList, ExportedList, ExportedTargets,
      ExportedOn, WrittenOn, EnvPairs, NoReferences, DistinctPlatforms, TrimmedVersion;
  }

  // ── The exported triggers ───────────────────────────────────────

  /** Trigger settings that map are in the file, which then starts exactly the webhooks they
      do with their globs read clean, apart from missed tags; others leave the file without
      an `on`. */
  lemma ExportedTriggersExact(f: Form, eventType: string, w: Triggers.Webhook, changed: Option<seq<string>>)
    requires Exportable(f) && f.triggers.Some?
    requires Triggers.NormalizeEvent(eventType) == Triggers.Canonical(Triggers.EventOf(w))
    ensures FileFor(Exported(f)).on.Some? <==> Triggers.MapTriggers(f.triggers.value).Mapped?
    ensures FileFor(Exported(f)).on.Some? ==>
      ((Triggers.OnStarts(FileFor(Exported(f)).on.value, w, changed) <==> Triggers.SettingsStart(Triggers.CleanOf(f.triggers.value), eventType, w, changed))
        <==> !Triggers.MissedTag(Triggers.CleanOf(f.triggers.value), w))
  {
    hide Exportable, Exported, FileFor, Triggers.MapTriggers, Triggers.OnStarts, Triggers.SettingsStart, Triggers.MissedTag, Triggers.CleanOf,
      Triggers.SpecOf, Triggers.NormalizeEvent, NormalizeLabels;
    ExportedParts(f);
    if Triggers.MapTriggers(f.triggers.value).Mapped? {
      Triggers.MapTriggersExact(f.triggers.value, eventType, w, changed);
    }
  }
}

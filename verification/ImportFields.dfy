/** What the form shows after an import is what was read. */
module ImportFields {
  import opened Wrappers
  import opened Text
  import opened References
  import opened StepNames
  import opened SecretText
  import opened Plan
  import opened Labels
  import opened Lower
  import opened FileChecks
  import opened Convert
  import opened Export
  import opened TargetInputs
  import opened ImportPlan
  import opened ImportTexts
  import opened ImportDraft
  import opened Import
  import opened FormFields
  import Resolver
  import Triggers

  /** The editor's settings are ones that its form holds. */
  ghost predicate FromForm(base: Option<Settings>) {
    base.Some? ==> FieldSettings(base.value)
  }

  // ── Commands ────────────────────────────────────────────────────

  lemma RunIsText(run: string)
    requires GoodRun(run) && OneLine(run)
    ensures FieldText(run, '\n')
  {
    hide SecretsOnly, Size, IsTrimmed;
  }

  /** Held steps run texts that a command field holds. */
  lemma RunsAreTexts(steps: seq<PlanStep>)
    requires GoodRuns(steps) && AllStepsHeld(steps) && forall i :: 0 <= i < |steps| ==> steps[i].platform.None?
    ensures FieldTexts(RunsOfSteps(steps), '\n')
  {
    hide GoodRun, OneLine, FieldText;
    forall i | 0 <= i < |steps|
      ensures FieldText(RunsOfSteps(steps)[i], '\n')
    {
      assert StepHeld(steps[i]);
      RunIsText(steps[i].run);
    }
  }

  lemma WordsAreTexts(s: string)
    ensures FieldTexts(Words(s), '\n')
  {
    hide Words;
    assert IsSpace('\n');
    var words := Words(s);
    forall i | 0 <= i < |words|
      ensures FieldText(words[i], '\n')
    {
      assert !IsSpace(words[i][0]) && !IsSpace(words[i][|words[i]| - 1]);
    }
  }

  ghost predicate FieldInputs(inputs: Inputs) {
    FieldOption(inputs.command) && FieldTexts(inputs.args, '\n')
  }

  ghost predicate FieldHeld(held: Held) {
    forall platform: Platform :: FieldInputs(InputsOf(held, platform))
  }

  lemma InputsAreFields(platform: Platform, build: string, play: bool, base: Option<Inputs>)
    requires IsTrimmed(build) && build != [] && (base.Some? ==> FieldInputs(base.value))
    ensures FieldInputs(TargetInputsFor(platform, build, play, base))
  {
    hide Render, FirstPart, Words, IsQuoted, FieldTexts, Trim, IsTrimmed;
    var args := ArgsFrom(platform, build, play);
    if args.Some? {
      ArgsAreWords(platform, build, play);
      var rest :| args.value == Words(rest);
      WordsAreTexts(rest);
    }
    NoTexts();
  }

  lemma ArgsAreWords(platform: Platform, build: string, play: bool)
    requires ArgsFrom(platform, build, play).Some?
    ensures exists rest :: ArgsFrom(platform, build, play).value == Words(rest)
  {
    hide Render, FirstPart, Words, IsQuoted;
  }

  lemma BaseIsHeld(base: Option<Settings>)
    requires FromForm(base)
    ensures FieldHeld(HeldBy(base))
  {
    hide FieldTexts, FieldOption, EnvFields, LabelFields;
    NoTexts();
    NoOption();
    forall platform: Platform
      ensures FieldInputs(InputsOf(HeldBy(base), platform))
    {
    }
  }

  lemma NoOption()
    ensures FieldOption(None)
  {
  }

  lemma HeldIsField(held: Held, platform: Platform, inputs: Inputs)
    requires FieldHeld(held) && FieldInputs(inputs)
    ensures FieldHeld(Hold(held, platform, inputs))
  {
    hide FieldInputs, InputsOf, Hold;
    HoldOne(held, platform, inputs);
  }

  lemma {:induction false} HeldAreFields(builds: seq<PlanStep>, k: nat, play: bool, base: Option<Settings>)
    requires k <= |builds| && GoodRuns(builds) && FromForm(base)
    ensures FieldHeld(HeldAfter(builds, k, play, base))
    decreases k
  {
    hide FieldInputs, Hold, TargetInputsFor, SecretsOnly, Size, IsTrimmed, FromForm, FieldHeld;
    BaseIsHeld(base);
    if k > 0 {
      HeldAreFields(builds, k - 1, play, base);
      var step := builds[k - 1];
      if step.platform.Some? {
        var platform := step.platform.value;
        assert GoodRun(step.run);
        assert FieldInputs(InputsOf(HeldBy(base), platform)) by {
          OneHeld(HeldBy(base), platform);
        }
        InputsAreFields(platform, step.run, play && platform.Android?, BaseInputs(base, platform));
        HeldIsField(HeldAfter(builds, k - 1, play, base), platform, InputsFor(step, play, base));
      }
    }
  }

  lemma OneHeld(held: Held, platform: Platform)
    requires FieldHeld(held)
    ensures FieldInputs(InputsOf(held, platform))
  {
  }

  lemma SubTexts(texts: seq<string>, from: nat, to: nat)
    requires FieldTexts(texts, '\n') && from <= to <= |texts|
    ensures FieldTexts(texts[from..to], '\n')
  {
    hide FieldText;
  }

  lemma DraftCommands(plan: PipelinePlan, play: bool, base: Option<Settings>, pre: seq<PlanStep>, builds: seq<PlanStep>, post: seq<PlanStep>)
    requires FormSteps(plan.steps, plan.platforms, pre, builds, post) && GoodRuns(plan.steps) && AllStepsHeld(plan.steps) && FromForm(base)
    ensures FieldCommands(DraftSettings(plan, play, base))
  {
    hide GoodRun, StepHeld, FieldTexts, StepsOf, HeldAfter, KeptVersion, KeptEnv, KeptArtifacts, KeptLabels, Unique, TrimAll, FieldOption,
      FromForm, OwnBuild, IsTrimmed, RunsOfSteps;
    StepsByPhase(plan.steps, plan.platforms, pre, builds, post);
    forall i | 0 <= i < |pre|
      ensures GoodRun(pre[i].run) && StepHeld(pre[i])
    {
      assert plan.steps[i] == pre[i];
    }
    forall i | 0 <= i < |builds|
      ensures GoodRun(builds[i].run)
    {
      assert plan.steps[|pre| + i] == builds[i];
    }
    forall i | 0 <= i < |post|
      ensures GoodRun(post[i].run) && StepHeld(post[i])
    {
      assert plan.steps[|pre| + |builds| + i] == post[i];
    }
    RunsAreTexts(pre);
    RunsAreTexts(post);
    HeldAreFields(builds, |builds|, play, base);
    var held, after := HeldAfter(builds, |builds|, play, base), RunsOfSteps(post);
    HeldInputs(held);
    var own := OwnBuild(base, after);
    SubTexts(after, 0, |own|);
    SubTexts(after, |own|, |after|);
    assert after[0..|own|] == own && after[|own|..|after|] == after[|own|..];
    NoTexts();
    var runs := RunsOfSteps(pre);
    if runs != [] {
      SubTexts(runs, 1, |runs|);
      assert runs[1..|runs|] == runs[1..];
    }
  }

  lemma HeldInputs(held: Held)
    requires FieldHeld(held)
    ensures FieldTexts(held.args.android, '\n') && FieldTexts(held.args.ios, '\n') && FieldTexts(held.args.macos, '\n')
    ensures FieldOption(held.commands.android) && FieldOption(held.commands.ios) && FieldOption(held.commands.macos)
  {
    hide FieldTexts, FieldOption;
    OneHeld(held, Android);
    OneHeld(held, Ios);
    OneHeld(held, Macos);
  }

  // ── The other fields ────────────────────────────────────────────

  lemma KeyIsField(key: string)
    requires IsEnvKey(key)
    ensures FieldText(key, '\n') && '=' !in key
  {
    hide IsTrimmed;
    KeyIsTrimmed(key);
  }

  lemma EnvIsField(env: seq<EnvVar>)
    requires GoodEnv(env) && AllEnvHeld(env)
    ensures EnvFields(env)
  {
    hide Trim, IsTrimmed, SecretsOnly, IsEnvKey, FieldText;
    forall i | 0 <= i < |env|
      ensures EnvField(env[i])
    {
      assert GoodEntry(env[i]) && EnvHeld(env[i]);
      KeyIsField(env[i].key);
    }
  }

  lemma LabelIsField(name: string)
    requires IsLabel(name)
    ensures FieldText(name, ',') && LowerAscii(name) == name
  {
    assert IsLabelChar(name[0]) && IsLabelChar(name[|name| - 1]);
  }

  lemma NormalIsField(labels: seq<string>)
    requires NormalizeLabels(labels) == Some(labels)
    ensures LabelFields(labels)
  {
    hide Before, IsLabel, NormalizeLabel, LowerAscii, FieldText, NormalizeLabels, NormalizeEach, Ascending;
    NormalizedLabels(labels);
    forall i | 0 <= i < |labels|
      ensures FieldText(labels[i], ',') && LowerAscii(labels[i]) == labels[i]
    {
      EachNormal(labels, labels[i]);
      LabelIsField(labels[i]);
    }
  }

  lemma EachNormal(labels: seq<string>, name: string)
    requires NormalizeLabels(labels) == Some(labels) && name in labels
    ensures IsLabel(name)
  {
    hide IsLabel, Sort, Dedup, NormalizeEach;
    NormalizedLabels(labels);
    assert name in NormalizeEach(labels).value;
  }

  /** The patterns as the form collects them are one line each. */
  ghost predicate OneLinePatterns(patterns: seq<string>) {
    forall i :: 0 <= i < |patterns| ==> '\n' !in Trim(patterns[i])
  }

  lemma CollectedTexts(patterns: seq<string>)
    requires forall i :: 0 <= i < |patterns| ==> !IsBlank(patterns[i])
    ensures FieldTexts(Unique(TrimAll(patterns)), '\n') <==> OneLinePatterns(patterns)
  {
    hide Trim, IsTrimmed, Unique;
    var r := Unique(TrimAll(patterns));
    forall i | 0 <= i < |r| && OneLinePatterns(patterns)
      ensures FieldText(r[i], '\n')
    {
      assert r[i] in TrimAll(patterns);
      var j :| 0 <= j < |patterns| && TrimAll(patterns)[j] == r[i];
      assert !IsBlank(patterns[j]);
      TrimTrimmed(patterns[j]);
    }
    forall i | 0 <= i < |patterns| && FieldTexts(r, '\n')
      ensures '\n' !in Trim(patterns[i])
    {
      assert TrimAll(patterns)[i] in TrimAll(patterns);
      assert Trim(patterns[i]) in r;
      var j :| 0 <= j < |r| && r[j] == Trim(patterns[i]);
      assert FieldText(r[j], '\n');
    }
  }

  lemma ListedTexts(patterns: seq<string>)
    requires patterns != [] && FieldTexts(patterns, '\n')
    ensures FieldTexts(ExportedList(patterns), '\n') && ExportedList(patterns) != []
  {
    hide Trim, IsTrimmed, Unique, NonEmpty;
    forall i | 0 <= i < |patterns|
      ensures Trim(patterns[i]) == patterns[i] && patterns[i] != []
    {
      assert FieldText(patterns[i], '\n');
      TrimTrimmed(patterns[i]);
    }
    assert TrimAll(patterns) == patterns;
    var r := ExportedList(patterns);
    assert patterns[0] in NonEmpty(patterns);
    assert patterns[0] in r;
    forall i | 0 <= i < |r|
      ensures FieldText(r[i], '\n')
    {
      assert r[i] in patterns;
      var j :| 0 <= j < |patterns| && patterns[j] == r[i];
    }
  }

  /** The list kept from the editor's settings is one that the form holds, so then the
      file's is too. */
  lemma DraftPatterns(plan: PipelinePlan, base: Option<Settings>)
    requires plan.artifacts != [] && AllPatternsGood(plan.artifacts) && FromForm(base)
    ensures
      var r := KeptArtifacts(Unique(TrimAll(plan.artifacts)), plan.platforms, base);
      r != [] && (FieldTexts(r, '\n') <==> OneLinePatterns(plan.artifacts))
  {
    hide Trim, Unique, TrimAll, ExportedList, PlatformDefaults, FieldTexts, IsArtifactPattern, Contains, EnvFields, LabelFields, FieldCommands;
    var patterns := Unique(TrimAll(plan.artifacts));
    CollectedTexts(plan.artifacts);
    assert TrimAll(plan.artifacts)[0] in patterns;
    if base.Some? {
      ListedTexts(base.value.artifacts);
    }
  }

  lemma PlanVersion(c: Config)
    requires FormFile(c) && FileOk(c)
    ensures FieldOption(LowerConfig(c, None, None).value.flutterVersion)
  {
    hide AllBuilds, LowerSteps, LowerEnv, AllPatterns, NormalizeLabels, Unique, TopTargets, Resolver.TableFor, Trim, StepsOk, TriggersOk,
      TriggersSizeOk, TargetOk, TargetSizeOk, EntriesOf, Resolution, OffsetOk, FlavorsOk, SizeOk, KeysOk, IsTrimmed, Scopes;
    if c.flutter.Some? {
      TrimTrimmed(c.flutter.value);
    }
  }

  /** Settings read from a file by an editor that shows what its form holds come back from
      the form as they are if and only if no artifact pattern has a line break: the importer
      refuses everything else that the form would change. */
  lemma ImportedComesBack(c: Config, ctx: Context, customized: bool)
    requires FormFile(c) && FileOk(c) && FromForm(ctx.settings)
    requires Holdable(LowerConfig(c, None, None).value, ctx)
    ensures
      var plan := LowerConfig(c, None, None).value;
      var settings := DraftSettings(plan, ctx.play, ctx.settings);
      FromFields(ToFields(settings, customized)) == settings <==> OneLinePatterns(plan.artifacts)
  {
    hide LowerConfig, SizeOk, ShapeOk, Resolution, FormFile, FieldTexts, FieldOption, FieldCommands, EnvFields, LabelFields, OneLinePatterns, GoodRuns, GoodEnv,
      AllStepsHeld, AllBuildsHeld, AllEnvHeld, GetsPackages, InFormOrder, StepsOf, HeldAfter, OwnBuild, KeptArtifacts, Unique, TrimAll,
      RunsOfSteps, FormSteps, AllPatternsGood, NormalizeLabels, ToFields, FromFields, OffsetOk, TrimmedVersion, TrimmedEnv;
    var plan := LowerConfig(c, None, None).value;
    var pre, builds, post := FileIsFormShaped(c);
    FileHasFormTexts(c);
    DraftCommands(plan, ctx.play, ctx.settings, pre, builds, post);
    PlanVersion(c);
    EnvIsField(plan.env);
    NormalIsField(plan.runsOn);
    DraftPatterns(plan, ctx.settings);
    SettingsComeBack(DraftSettings(plan, ctx.play, ctx.settings), customized);
  }

  // ── Triggers ────────────────────────────────────────────────────

  ghost predicate OneLineEach(patterns: seq<string>) {
    forall i :: 0 <= i < |patterns| ==> '\n' !in patterns[i]
  }

  lemma CleanTexts(patterns: seq<string>)
    requires Triggers.AllClean(patterns)
    ensures NoComma(patterns) ==> FieldTexts(patterns, ',')
    ensures FieldTexts(patterns, '\n') <==> OneLineEach(patterns)
  {
    hide IsTrimmed;
    forall i | 0 <= i < |patterns| && OneLineEach(patterns)
      ensures FieldText(patterns[i], '\n')
    {
    }
    forall i | 0 <= i < |patterns| && FieldTexts(patterns, '\n')
      ensures '\n' !in patterns[i]
    {
      assert FieldText(patterns[i], '\n');
    }
    forall i | 0 <= i < |patterns| && NoComma(patterns)
      ensures FieldText(patterns[i], ',')
    {
    }
  }

  /** Trigger settings made for an `on` come back but for a path with a line break. */
  lemma MadeComesBack(on: Triggers.OnSpec, base: Triggers.Settings)
    requires Triggers.NormalizedOn(on) && Triggers.MapTriggers(base) != Triggers.Mapped(on)
    requires Triggers.UnmapOf(on, base).Unmap? && CommaFree(Triggers.UnmapOf(on, base).settings)
    ensures FieldTriggers(Triggers.UnmapOf(on, base).settings) <==> OneLineEach(on.paths)
  {
    hide Triggers.MapTriggers, Triggers.NameOf, FieldTexts, NoComma, OneLineEach, Triggers.AllClean;
    var t := Triggers.UnmapOf(on, base).settings;
    NoTexts();
    assert FieldTexts([], ',') by {
      NoCsv();
    }
    CleanTexts(on.paths);
    CleanTexts(on.tag);
    if on.push.Some? {
      CleanTexts(on.push.value);
    }
    assert t.events != [] && t.events[0] in t.events;
    assert |t.events| > 1 ==> t.events[1] in t.events;
    assert |t.events| > 2 ==> t.events[2] in t.events;
  }

  lemma CleanedIn(patterns: seq<string>)
    requires FieldTexts(patterns, '\n')
    ensures OneLineEach(Triggers.Cleaned(patterns))
  {
    hide Trim, IsTrimmed;
    forall i | 0 <= i < |patterns|
      ensures patterns[i] != [] && IsTrimmed(patterns[i])
    {
      assert FieldText(patterns[i], '\n');
    }
    Triggers.CleanedClean(patterns);
    forall i | 0 <= i < |patterns|
      ensures '\n' !in patterns[i]
    {
      assert FieldText(patterns[i], '\n');
    }
  }

  lemma KeptPaths(base: Triggers.Settings, on: Triggers.OnSpec)
    requires FieldTriggers(base) && Triggers.MapTriggers(base) == Triggers.Mapped(on)
    ensures OneLineEach(on.paths)
  {
    hide Triggers.Cleaned, Triggers.Listed, FieldText, TagsApply, PathsApply;
    CleanedIn(base.paths);
  }

  /** Trigger settings read from a file come back from the form if and only if no path glob
      has a line break; the importer refuses commas. */
  lemma ReadTriggersComeBack(c: Config, ctx: Context)
    requires c.on.Some? && TriggersOk(c.on.value) && TriggersHeld(c, ctx) && FieldTriggers(ctx.triggers.value)
    ensures
      var t := TriggersRead(c, ctx).value;
      FromTriggerFields(ToTriggerFields(t)) == t <==> OneLineEach(FileOn(c).value.paths)
  {
    hide Triggers.MapTriggers, Triggers.NormalizedOn, FileOn, CommaFree, FieldTriggers, TriggersOk, OneLineEach, Triggers.NamesOf,
      FromTriggerFields, ToTriggerFields;
    assert FileOn(c).None? <==> c.on.None? || TargetsPullRequests(c) by {
      FileOnIs(c);
    }
    FileOnIsNormalized(c);
    var on, base := FileOn(c).value, ctx.triggers.value;
    if Triggers.MapTriggers(base) == Triggers.Mapped(on) {
      KeptPaths(base, on);
    } else {
      MadeComesBack(on, base);
    }
    TriggersComeBack(TriggersRead(c, ctx).value);
  }
}

/** Importing a file into the form: it never changes what runs, and it undoes an export. */
module Import {
  import opened Wrappers
  import opened Text
  import opened References
  import opened StepNames
  import opened SecretText
  import opened Plan
  import opened Labels
  import opened Lower
  import opened FileChecks
  import opened GeneratedFile
  import opened GeneratedChecks
  import opened GeneratedBehaviour
  import opened GeneratedNeeds
  import opened UserSteps
  import opened Convert
  import opened ExportSteps
  import opened Export
  import opened ImportPlan
  import opened ImportDraft
  import opened TargetInputs
  import Triggers
  import PathGlob

  /** What the editor holds now. */
  datatype Context = Context(settings: Option<Settings>, triggers: Option<Triggers.Settings>, play: bool)

  datatype Problem =
    | Workflows | Vars | Flavors | ManyLineStep | NoPackages | TargetOrder | ManyLineBuild(platform: Platform)
    | ManyLineEnv(key: string) | PaddedEnv(key: string) | PullRequestTargets | NoTriggers
    | OnNotHeld(error: Triggers.UnmapError) | CommaInGlob

  // ── What the form can hold ──────────────────────────────────────

  predicate OneLine(text: string) {
    '\n' !in text
  }

  function InFormOrder(platforms: seq<Platform>): seq<Platform> {
    (if Android in platforms then [Android] else []) + (if Ios in platforms then [Ios] else []) + (if Macos in platforms then [Macos] else [])
  }

  predicate StepHeld(step: PlanStep) {
    step.platform.None? ==> OneLine(step.run)
  }

  predicate BuildHeld(step: PlanStep, ctx: Context) {
    step.platform.Some? ==>
      var inputs := InputsFor(step, ctx.play, ctx.settings);
      inputs.command.Some? ==> OneLine(inputs.command.value)
  }

  predicate EnvHeld(entry: EnvVar) {
    OneLine(entry.value) && Trim(entry.value) == entry.value
  }

  predicate GetsPackages(plan: PipelinePlan) {
    var pre := RunsOfSteps(StepsOf(plan.steps, PreBuild));
    pre != [] && pre[0] == PubGet()
  }

  ghost predicate AllStepsHeld(steps: seq<PlanStep>) {
    forall i :: 0 <= i < |steps| ==> StepHeld(steps[i])
  }

  ghost predicate AllBuildsHeld(steps: seq<PlanStep>, ctx: Context) {
    forall i :: 0 <= i < |steps| ==> BuildHeld(steps[i], ctx)
  }

  ghost predicate AllEnvHeld(env: seq<EnvVar>) {
    forall i :: 0 <= i < |env| ==> EnvHeld(env[i])
  }

  ghost predicate Holdable(plan: PipelinePlan, ctx: Context) {
    && AllStepsHeld(plan.steps) && GetsPackages(plan) && InFormOrder(plan.platforms) == plan.platforms
    && AllBuildsHeld(StepsOf(plan.steps, Build), ctx) && AllEnvHeld(plan.env)
  }

  function NormalizeOn(on: Triggers.OnSpec): Triggers.OnSpec {
    Triggers.OnSpec(
      if on.push.Some? then Some(TrimAll(on.push.value)) else None, on.pullRequest, TrimAll(on.tag), TrimAll(on.paths))
  }

  predicate TargetsPullRequests(c: Config) {
    c.on.Some? && c.on.value.pullRequest.Some? && c.on.value.pullRequest.value.Branches?
  }

  /** The file's `on`, without paths that narrow nothing. */
  function FileOn(c: Config): Option<Triggers.OnSpec> {
    if c.on.None? || TargetsPullRequests(c) then None
    else
      var on := NormalizeOn(Triggers.OnOf(c.on.value));
      Some(if on.push.None? && !on.pullRequest then on.(paths := []) else on)
  }

  predicate NoComma(patterns: seq<string>) {
    forall i :: 0 <= i < |patterns| ==> ',' !in patterns[i]
  }

  predicate CommaFree(triggers: Triggers.Settings) {
    NoComma(triggers.branches) && NoComma(triggers.tags)
  }

  /** The file's `on` is one that trigger settings can say, without commas. */
  predicate TriggersHeld(c: Config, ctx: Context) {
    c.on.Some? ==>
      && !TargetsPullRequests(c) && ctx.triggers.Some?
      && var r := Triggers.UnmapOf(FileOn(c).value, ctx.triggers.value); r.Unmap? && CommaFree(r.settings)
  }

  /** The trigger settings read, when the form can hold them. */
  function TriggersRead(c: Config, ctx: Context): Option<Triggers.Settings>
    requires TriggersHeld(c, ctx)
  {
    if c.on.None? then None else Some(Triggers.UnmapOf(FileOn(c).value, ctx.triggers.value).settings)
  }

  /** The editor's own trigger settings already say what the file's `on` says. */
  predicate SameTriggers(c: Config, ctx: Context) {
    c.on.Some? ==>
      && !TargetsPullRequests(c) && ctx.triggers.Some?
      && Triggers.MapTriggers(ctx.triggers.value) == Triggers.Mapped(FileOn(c).value) && CommaFree(ctx.triggers.value)
  }

  lemma SameAreHeld(c: Config, ctx: Context)
    requires SameTriggers(c, ctx)
    ensures TriggersHeld(c, ctx) && TriggersRead(c, ctx) == if c.on.None? then None else ctx.triggers
  {
    hide Triggers.MapTriggers, FileOn, CommaFree, Triggers.NamesOf;
    assert FileOn(c).None? <==> c.on.None? || TargetsPullRequests(c) by {
      FileOnIs(c);
    }
  }

  // ── `import_form_settings`, up to its own check ─────────────────

  lemma TrimmedIsClean(patterns: seq<string>)
    requires NoBlank(patterns)
    ensures Triggers.AllClean(TrimAll(patterns))
  {
    hide Trim, IsTrimmed;
    forall i | 0 <= i < |patterns|
      ensures TrimAll(patterns)[i] != [] && IsTrimmed(TrimAll(patterns)[i])
    {
      assert !IsBlank(patterns[i]);
      TrimTrimmed(patterns[i]);
    }
  }

  lemma FileOnIsNormalized(c: Config)
    requires c.on.Some? && TriggersOk(c.on.value) && !TargetsPullRequests(c)
    ensures Triggers.NormalizedOn(FileOn(c).value)
  {
    hide NoBlank, Triggers.AllClean, TrimAll;
    var on := c.on.value;
    var branches := if on.push.Some? && on.push.value.Branches? then on.push.value.patterns else [];
    assert NoBlank(branches) by {
      if branches == [] {
        NothingBlank();
      }
    }
    TrimmedIsClean(branches);
    TrimmedIsClean(on.tag);
    TrimmedIsClean(on.paths);
    NothingClean();
  }

  lemma NothingBlank()
    ensures NoBlank([])
  {
  }

  lemma NothingClean()
    ensures Triggers.AllClean([]) && TrimAll([]) == []
  {
  }

  method CheckSteps(steps: seq<PlanStep>) returns (problems: seq<Problem>)
    ensures problems == [] <==> AllStepsHeld(steps)
  {
    hide OneLine;
    problems := [];
    for i := 0 to |steps|
      invariant problems == [] <==> AllStepsHeld(steps[..i])
    {
      assert steps[..i + 1] == steps[..i] + [steps[i]];
      if steps[i].platform.None? && !OneLine(steps[i].run) {
        problems := problems + [ManyLineStep];
        assert !StepHeld(steps[..i + 1][i]);
      } else {
        assert StepHeld(steps[i]);
      }
      HeldWith(steps, i);
    }
    assert steps[..|steps|] == steps;
  }

  lemma HeldWith(steps: seq<PlanStep>, i: nat)
    requires i < |steps|
    ensures AllStepsHeld(steps[..i + 1]) <==> AllStepsHeld(steps[..i]) && StepHeld(steps[i])
  {
    hide StepHeld;
    assert steps[..i + 1] == steps[..i] + [steps[i]];
    assert steps[..i + 1][i] == steps[i];
    assert forall k :: 0 <= k < i ==> steps[..i + 1][k] == steps[..i][k];
  }

  /** The target inputs, collected build by build. */
  method CollectInputs(builds: seq<PlanStep>, ctx: Context) returns (held: Held, problems: seq<Problem>)
    ensures held == HeldAfter(builds, |builds|, ctx.play, ctx.settings)
    ensures problems == [] <==> AllBuildsHeld(builds, ctx)
  {
    hide InputsFor, Hold, OneLine, HeldBy;
    held, problems := HeldBy(ctx.settings), [];
    for i := 0 to |builds|
      invariant held == HeldAfter(builds, i, ctx.play, ctx.settings)
      invariant problems == [] <==> forall k :: 0 <= k < i ==> BuildHeld(builds[k], ctx)
    {
      var step := builds[i];
      if step.platform.Some? {
        var inputs := InputsFor(step, ctx.play, ctx.settings);
        if inputs.command.Some? && !OneLine(inputs.command.value) {
          problems := problems + [ManyLineBuild(step.platform.value)];
        }
        held := Hold(held, step.platform.value, inputs);
      }
    }
  }

  method CheckEnv(env: seq<EnvVar>) returns (problems: seq<Problem>)
    ensures problems == [] <==> AllEnvHeld(env)
  {
    hide OneLine, Trim;
    problems := [];
    for i := 0 to |env|
      invariant problems == [] <==> forall k :: 0 <= k < i ==> EnvHeld(env[k])
    {
      if !OneLine(env[i].value) {
        problems := problems + [ManyLineEnv(env[i].key)];
      } else if Trim(env[i].value) != env[i].value {
        problems := problems + [PaddedEnv(env[i].key)];
      }
    }
  }

  /** Trigger settings for the file's `on`. */
  method ReadTriggers(c: Config, ctx: Context) returns (problems: seq<Problem>, triggers: Option<Triggers.Settings>)
    requires c.on.Some? ==> TriggersOk(c.on.value)
    ensures problems == [] && FileOn(c).None? ==> c.on.None? && triggers.None?
    ensures problems == [] && FileOn(c).Some? ==>
      && triggers.Some? && Triggers.MapTriggers(triggers.value) == Triggers.Mapped(FileOn(c).value)
      && ctx.triggers.Some? && triggers.value.schedules == ctx.triggers.value.schedules
    ensures problems == [] <==> TriggersHeld(c, ctx)
    ensures problems == [] ==> triggers == TriggersRead(c, ctx)
  {
    hide TriggersOk, FileOn, NoComma, Triggers.MapTriggers, Triggers.NormalizedOn, Triggers.UnmapOf;
    problems, triggers := [], None;
    assert FileOn(c).None? <==> c.on.None? || TargetsPullRequests(c) by {
      FileOnIs(c);
    }
    if TargetsPullRequests(c) {
      problems := [PullRequestTargets];
      return;
    }
    if c.on.None? {
      return;
    }
    if ctx.triggers.None? {
      problems := [NoTriggers];
      return;
    }
    var on := FileOn(c).value;
    FileOnIsNormalized(c);
    var r := Triggers.UnmapTriggers(on, ctx.triggers.value);
    match r {
      case CannotUnmap(error) =>
        problems := [OnNotHeld(error)];
      case Unmap(settings) =>
        triggers := Some(settings);
        if !CommaFree(settings) {
          problems := [CommaInGlob];
        }
    }
  }

  lemma FileOnIs(c: Config)
    ensures FileOn(c).None? <==> c.on.None? || TargetsPullRequests(c)
  {
    hide NormalizeOn;
  }

  method ReadArtifacts(plan: PipelinePlan, base: Option<Settings>) returns (r: seq<string>)
    ensures r == KeptArtifacts(Unique(TrimAll(plan.artifacts)), plan.platforms, base)
  {
    hide Unique, TrimAll, ExportedList, DefaultsFor;
    r := CollectUnique(plan.artifacts);
    if base.Some? {
      var listed := ExportedList(base.value.artifacts);
      if listed == r || (listed == [] && r == PlatformDefaults(plan.platforms)) {
        r := base.value.artifacts;
      }
    }
  }

  /** `import_form_settings` up to its own check: what the form cannot hold, and the
      settings it would hold. */
  method ReadForm(c: Config, plan: PipelinePlan, ctx: Context)
    returns (problems: seq<Problem>, settings: Settings, triggers: Option<Triggers.Settings>)
    requires c.on.Some? ==> TriggersOk(c.on.value)
    ensures problems == [] ==> FormFile(c) && Holdable(plan, ctx) && settings == DraftSettings(plan, ctx.play, ctx.settings)
    ensures problems == [] && FileOn(c).None? ==> c.on.None? && triggers.None?
    ensures problems == [] && FileOn(c).Some? ==>
      && triggers.Some? && Triggers.MapTriggers(triggers.value) == Triggers.Mapped(FileOn(c).value)
      && ctx.triggers.Some? && triggers.value.schedules == ctx.triggers.value.schedules
    ensures problems == [] <==> FormFile(c) && Holdable(plan, ctx) && TriggersHeld(c, ctx)
    ensures problems == [] ==> triggers == TriggersRead(c, ctx)
  {
    hide TriggersOk, FileOn, TriggersHeld, TriggersRead, Triggers.MapTriggers, AllStepsHeld, AllBuildsHeld, AllEnvHeld, StepsOf, PubGet, InFormOrder,
      HeldAfter, OwnBuild, KeptVersion, KeptEnv, KeptArtifacts, KeptLabels, Unique, TrimAll;
    problems := [];
    if c.workflows != [] {
      problems := problems + [Workflows];
    }
    if c.vars != [] {
      problems := problems + [Vars];
    }
    if c.flavors != [] {
      problems := problems + [Flavors];
    }
    settings := DraftSettings(plan, ctx.play, ctx.settings);
    triggers := None;
    if problems != [] {
      return;
    }
    var more := CheckSteps(plan.steps);
    problems := problems + more;
    var pre := RunsOfSteps(StepsOf(plan.steps, PreBuild));
    if pre != [] && pre[0] == PubGet() {
      pre := pre[1..];
    } else {
      problems := problems + [NoPackages];
    }
    if InFormOrder(plan.platforms) != plan.platforms {
      problems := problems + [TargetOrder];
    }
    var after := RunsOfSteps(StepsOf(plan.steps, PostBuild));
    var own := OwnBuild(ctx.settings, after);
    var held;
    held, more := CollectInputs(StepsOf(plan.steps, Build), ctx);
    problems := problems + more;
    more := CheckEnv(plan.env);
    problems := problems + more;
    more, triggers := ReadTriggers(c, ctx);
    problems := problems + more;
    var artifacts := ReadArtifacts(plan, ctx.settings);
    settings := Settings(
      plan.platforms, KeptVersion(plan.flutterVersion, ctx.settings), pre, own, after[|own|..], held.args, held.commands,
      KeptEnv(plan.env, ctx.settings), artifacts, plan.offset, KeptLabels(plan.runsOn, ctx.settings), plan.isolation);
  }

  // ── The check ───────────────────────────────────────────────────

  datatype Checked = CannotExport(outcome: Outcome) | BuildsOtherwise | StartsOtherwise | Same

  /** Export the settings again and compare: `import_form_settings`' own check. */
  ghost function Check(plan: PipelinePlan, f: Form, on: Option<Triggers.OnSpec>): Checked {
    if !ExportForm(f).Ok? then CannotExport(ExportForm(f))
    else
      var file := FileFor(Exported(f));
      var replan := LowerConfig(file, None, None).value;
      if BehaviourOf(plan) != BehaviourOf(replan) then BuildsOtherwise
      else if on.Some? && (file.on.None? || NormalizeOn(Triggers.OnOf(file.on.value)) != on.value) then StartsOtherwise
      else Same
  }

  lemma {:induction false} CleanedIsTrimmed(patterns: seq<string>)
    ensures TrimAll(Triggers.Cleaned(patterns)) == Triggers.Cleaned(patterns)
  {
    hide Trim;
    if patterns != [] {
      CleanedIsTrimmed(patterns[1..]);
      TrimTwice(patterns[0]);
      var rest := Triggers.Cleaned(patterns[1..]);
      assert forall i :: 0 <= i < |rest| ==> rest[i] == TrimAll(rest)[i];
    }
  }

  lemma MappedIsNormal(s: Triggers.Settings)
    requires Triggers.MapTriggers(s).Mapped?
    ensures NormalizeOn(Triggers.MapTriggers(s).on) == Triggers.MapTriggers(s).on
  {
    hide Triggers.Cleaned, Triggers.Listed, TrimAll;
    CleanedIsTrimmed(s.branches);
    CleanedIsTrimmed(s.tags);
    CleanedIsTrimmed(s.paths);
    StarIsTrimmed();
    assert TrimAll([]) == [] by {
      NothingClean();
    }
  }

  lemma StarIsTrimmed()
    ensures TrimAll(["*"]) == ["*"]
  {
    hide TrimStart, TrimEnd;
    TrimTrimmed("*");
  }

  lemma OnReadBack(f: Form, on: Triggers.OnSpec)
    requires f.triggers.Some? && Triggers.MapTriggers(f.triggers.value) == Triggers.Mapped(on)
    ensures WrittenOn(ExportedOn(f.triggers)) == Some(Triggers.SpecOf(on)) && NormalizeOn(Triggers.OnOf(Triggers.SpecOf(on))) == on
  {
    hide Triggers.MapTriggers, NormalizeOn, Triggers.OnOf, Triggers.SpecOf;
    Triggers.OnOfSpec(f.triggers.value);
    MappedIsNormal(f.triggers.value);
  }

  /** Whatever the file and the editor hold: settings that the form can hold and that
      export at all do exactly what the file does, on the same webhooks. */
  lemma ImportNeverDiffers(c: Config, ctx: Context, f: Form)
    requires FormFile(c) && FileOk(c)
    requires
      var plan := LowerConfig(c, None, None).value;
      Holdable(plan, ctx) && f.settings == DraftSettings(plan, ctx.play, ctx.settings) && f.play == ctx.play
    requires FileOn(c).Some? ==> f.triggers.Some? && Triggers.MapTriggers(f.triggers.value) == Triggers.Mapped(FileOn(c).value)
    ensures Check(LowerConfig(c, None, None).value, f, FileOn(c)) == if ExportForm(f).Ok? then Same else CannotExport(ExportForm(f))
  {
    hide FormFile, FileOk, FormShaped, LowerConfig, Holdable, ExportForm, BehaviourOf, FileFor, PlanFor, Exported, DraftSettings, FileOn,
      NormalizeOn, Triggers.OnOf, Triggers.MapTriggers, NormalizeLabels;
    assert LowerConfig(c, None, None).Some? by {
      FileHasPlan(c);
    }
    var plan := LowerConfig(c, None, None).value;
    var pre, builds, post := FileIsFormShaped(c);
    assert FormPlan(plan, pre, builds, post) by {
      PackagesFirst(plan, ctx, pre, builds, post);
    }
    DraftBehaviour(plan, f, ctx.settings, pre, builds, post);
    if ExportForm(f).Ok? {
      assert Exportable(f) by {
        ExportedOk(f);
      }
      ExportedOk(f);
      if FileOn(c).Some? {
        OnReadBack(f, FileOn(c).value);
      }
    }
  }

  lemma FileHasPlan(c: Config)
    requires FileOk(c)
    ensures LowerConfig(c, None, None).Some?
  {
    hide SizeOk, ShapeOk, LowerConfig, Resolution;
  }

  lemma PackagesFirst(plan: PipelinePlan, ctx: Context, pre: seq<PlanStep>, builds: seq<PlanStep>, post: seq<PlanStep>)
    requires FormShaped(plan, pre, builds, post) && Holdable(plan, ctx)
    ensures FormPlan(plan, pre, builds, post)
  {
    hide FormSteps, StepsOf, PubGet, AllStepsHeld, AllBuildsHeld, AllEnvHeld, InFormOrder, NormalizeLabels, AllPatternsGood;
    StepsByPhase(plan.steps, plan.platforms, pre, builds, post);
  }

  lemma ExportedOk(f: Form)
    requires ExportForm(f).Ok?
    ensures Exportable(f) && FileOk(FileFor(Exported(f))) && Plannable(Exported(f)) && GeneratedFits(Exported(f))
    ensures LowerConfig(FileFor(Exported(f)), None, None) == Some(PlanFor(Exported(f)))
    ensures FileFor(Exported(f)).on == WrittenOn(ExportedOn(f.triggers))
    ensures !BadSeam(f) && !HasBlank(f.settings.artifacts)
  {
    hide Exportable, Exported, Plannable, GeneratedFits, FileOk, LowerConfig, PlanFor, FileFor, ExportedOn, WrittenOn, ExportForm, BadSeam,
      HasBlank;
    ExportOutcome(f);
    ExportedFileOk(f);
    ExportedParts(f);
  }

  // ── The file's `on` as read ─────────────────────────────────────

  lemma TrimmedMatches(patterns: seq<string>, reference: string)
    ensures Triggers.MatchesAny(TrimAll(TrimAll(patterns)), reference) <==> Triggers.MatchesAny(TrimAll(patterns), reference)
  {
    hide Trim;
    forall i | 0 <= i < |patterns|
      ensures TrimAll(TrimAll(patterns))[i] == TrimAll(patterns)[i]
    {
      TrimTwice(patterns[i]);
    }
    assert TrimAll(TrimAll(patterns)) == TrimAll(patterns);
  }

  lemma TrimmedPaths(patterns: seq<string>, file: string)
    ensures Triggers.PathMatchesAny(TrimAll(patterns), file) <==> Triggers.PathMatchesAny(patterns, file)
  {
    hide Trim, PathGlob.ArtifactPatternMatches;
    forall i | 0 <= i < |patterns|
      ensures PathGlob.ChangedPathMatches(TrimAll(patterns)[i], file) <==> PathGlob.ChangedPathMatches(patterns[i], file)
    {
      TrimTwice(patterns[i]);
    }
  }

  /** The `on` that is read from a file starts exactly the webhooks that the file's does. */
  lemma FileOnStartsTheSame(c: Config, w: Triggers.Webhook, changed: Option<seq<string>>)
    requires c.on.Some? && TriggersOk(c.on.value) && !TargetsPullRequests(c)
    ensures Triggers.OnStarts(Triggers.SpecOf(FileOn(c).value), w, changed) <==> Triggers.OnStarts(c.on.value, w, changed)
  {
    hide Triggers.MatchesAny, Triggers.PathMatchesAny, TrimAll, NoBlank;
    var on, read := c.on.value, Triggers.SpecOf(FileOn(c).value);
    assert Triggers.MatchesRef(read, w) <==> Triggers.MatchesRef(on, w) by {
      RefsTheSame(c, w);
    }
    if !w.Tag? && Triggers.MatchesRef(on, w) {
      PathsTheSame(on.paths, changed);
      assert read.paths == TrimAll(on.paths);
    }
  }

  lemma RefsTheSame(c: Config, w: Triggers.Webhook)
    requires c.on.Some? && TriggersOk(c.on.value) && !TargetsPullRequests(c)
    ensures Triggers.MatchesRef(Triggers.SpecOf(FileOn(c).value), w) <==> Triggers.MatchesRef(c.on.value, w)
  {
    hide Triggers.MatchesAny, Trim, NoBlank;
    var on := c.on.value;
    match w {
      case Push(branch) =>
        if on.push.Some? && on.push.value.Branches? {
          TrimmedMatches(on.push.value.patterns, branch);
        }
      case PullRequest(_, _) =>
      case Tag(tag) =>
        TrimmedMatches(on.tag, tag);
    }
  }

  lemma PathsTheSame(paths: seq<string>, changed: Option<seq<string>>)
    ensures TrimAll(paths) == [] <==> paths == []
    ensures changed.Some? ==> forall i :: 0 <= i < |changed.value| ==>
      (Triggers.PathMatchesAny(TrimAll(paths), changed.value[i]) <==> Triggers.PathMatchesAny(paths, changed.value[i]))
  {
    hide Triggers.PathMatchesAny, Trim;
    if changed.Some? {
      forall i | 0 <= i < |changed.value|
        ensures Triggers.PathMatchesAny(TrimAll(paths), changed.value[i]) <==> Triggers.PathMatchesAny(paths, changed.value[i])
      {
        TrimmedPaths(paths, changed.value[i]);
      }
    }
  }

  /** The form's order: Android, iOS, macOS, and exactly the platforms there are. */
  lemma FormOrderIs(platforms: seq<Platform>)
    ensures forall p :: p in InFormOrder(platforms) <==> p in platforms
    ensures forall i, j :: 0 <= i < j < |InFormOrder(platforms)| ==>
      (InFormOrder(platforms)[i], InFormOrder(platforms)[j]) in {(Android, Ios), (Android, Macos), (Ios, Macos)}
  {
    forall p: Platform
      ensures p in InFormOrder(platforms) <==> p in platforms
    {
      match p {
        case Android =>
        case Ios =>
        case Macos =>
      }
    }
  }
}

/** What a build runs, and the plan of a version 1 file or of the pipeline's form settings. */
module Plan {
  import opened Wrappers
  import opened Text
  import opened StepNames

  datatype Platform = Android | Ios | Macos

  datatype Phase = PreBuild | Build | PostBuild

  datatype Isolation = OnHost | InVm

  datatype PlanStep = PlanStep(
    name: string, phase: Phase, run: string, platform: Option<Platform>, flavor: Option<string>)

  datatype EnvVar = EnvVar(key: string, value: string)

  datatype PipelinePlan = PipelinePlan(
    workflow: Option<string>, platforms: seq<Platform>, flutterVersion: Option<string>,
    steps: seq<PlanStep>, env: seq<EnvVar>, artifacts: seq<string>, offset: int,
    runsOn: seq<string>, isolation: Isolation)

  datatype PerPlatform<+T> = PerPlatform(android: T, ios: T, macos: T)

  function For<T>(p: PerPlatform<T>, platform: Platform): T {
    match platform
    case Android => p.android
    case Ios => p.ios
    case Macos => p.macos
  }

  /** `PipelineExecutionConfig`: a version 1 file, or the form's build settings. */
  datatype Settings = Settings(
    platforms: seq<Platform>, flutterVersion: Option<string>, preBuild: seq<string>, build: seq<string>,
    postBuild: seq<string>, args: PerPlatform<seq<string>>, commands: PerPlatform<Option<string>>,
    env: seq<EnvVar>, artifacts: seq<string>, offset: int, runsOn: seq<string>, isolation: Isolation)

  // ── Default commands ────────────────────────────────────────────

  function PubGet(): string {
    "flutter pub get"
  }

  function BaseCommand(platform: Platform): string {
    match platform
    case Android => "flutter build apk --release"
    case Ios => "flutter build ios --release --no-codesign"
    case Macos => "flutter build macos --release"
  }

  function BundleBase(): string {
    "flutter build appbundle --release"
  }

  function WithArgs(base: string, args: seq<string>): string {
    if args == [] then base else base + " " + Join(args, " ")
  }

  /** `default_platform_command`. */
  function PlatformCommand(s: Settings, platform: Platform): string {
    var command := For(s.commands, platform);
    if command.Some? then command.value else WithArgs(BaseCommand(platform), For(s.args, platform))
  }

  function BundleArgs(args: seq<string>): seq<string> {
    if args == [] then []
    else (if args[0] == "--split-per-abi" then [] else [args[0]]) + BundleArgs(args[1..])
  }

  /** `default_play_bundle_command`. */
  function BundleCommand(s: Settings): string {
    WithArgs(BundleBase(), BundleArgs(s.args.android))
  }

  // ── The plan of settings ────────────────────────────────────────

  /** A command and the platform it builds, if it builds one. */
  datatype Command = Command(run: string, platform: Option<Platform>)

  function UserCommands(runs: seq<string>): seq<Command> {
    seq(|runs|, i requires 0 <= i < |runs| => Command(runs[i], None))
  }

  predicate BuildsBundle(s: Settings, platform: Platform, bundle: bool) {
    bundle && platform.Android? && s.commands.android.None?
  }

  function PlatformBuilds(s: Settings, platform: Platform, bundle: bool): seq<Command> {
    [Command(PlatformCommand(s, platform), Some(platform))]
    + if BuildsBundle(s, platform, bundle) then [Command(BundleCommand(s), Some(Android))] else []
  }

  function AllPlatformBuilds(s: Settings, platforms: seq<Platform>, bundle: bool): seq<Command> {
    if platforms == [] then []
    else PlatformBuilds(s, platforms[0], bundle) + AllPlatformBuilds(s, platforms[1..], bundle)
  }

  function Stage(phase: Phase): string {
    match phase
    case PreBuild => "pre_build"
    case Build => "build"
    case PostBuild => "post_build"
  }

  function Named(phase: Phase, commands: seq<Command>): seq<PlanStep> {
    seq(|commands|, i requires 0 <= i < |commands| =>
      PlanStep(Stage(phase) + "-" + Digits(i + 1), phase, commands[i].run, commands[i].platform, None))
  }

  /** The plan of settings, as what `plan_execution_config` has to give. */
  function PlanSettings(s: Settings, defaults: bool, bundle: bool): PipelinePlan {
    var preBuild := (if defaults && s.platforms != [] then UserCommands([PubGet()]) else []) + UserCommands(s.preBuild);
    var build := (if defaults then AllPlatformBuilds(s, s.platforms, bundle) else []) + UserCommands(s.build);
    PipelinePlan(
      None, s.platforms, s.flutterVersion,
      Named(PreBuild, preBuild) + Named(Build, build) + Named(PostBuild, UserCommands(s.postBuild)),
      s.env, s.artifacts, s.offset, s.runsOn, s.isolation)
  }

  // ── Behaviour ───────────────────────────────────────────────────

  datatype StepBehaviour = StepBehaviour(phase: Phase, run: string, platform: Option<Platform>)

  /** What a build depends on; step names differ between file versions by design. */
  datatype Behaviour = Behaviour(
    platforms: seq<Platform>, flutterVersion: Option<string>, steps: seq<StepBehaviour>, env: seq<EnvVar>,
    artifacts: seq<string>, offset: int, runsOn: seq<string>, isolation: Isolation)

  function Steps(steps: seq<PlanStep>): (r: seq<StepBehaviour>)
    ensures |r| == |steps|
  {
    seq(|steps|, i requires 0 <= i < |steps| => StepBehaviour(steps[i].phase, Trim(steps[i].run), steps[i].platform))
  }

  function TrimmedVersion(version: Option<string>): Option<string> {
    if version.None? || Trim(version.value) == [] then None else Some(Trim(version.value))
  }

  function TrimmedEnv(env: seq<EnvVar>): (r: seq<EnvVar>)
    ensures |r| == |env|
  {
    seq(|env|, i requires 0 <= i < |env| => EnvVar(Trim(env[i].key), Trim(env[i].value)))
  }

  /** Each text once, where it first stands. */
  function Unique(texts: seq<string>): (r: seq<string>)
    ensures forall x :: x in r <==> x in texts
    ensures forall i, j :: 0 <= i < j < |r| ==> r[i] != r[j]
  {
    if texts == [] then []
    else
      var init, last := Unique(texts[..|texts| - 1]), texts[|texts| - 1];
      assert texts == texts[..|texts| - 1] + [last];
      if last in init then init else init + [last]
  }

  /** `Behaviour::of`. */
  function BehaviourOf(plan: PipelinePlan): Behaviour {
    Behaviour(
      plan.platforms, TrimmedVersion(plan.flutterVersion), Steps(plan.steps), TrimmedEnv(plan.env),
      Unique(TrimAll(plan.artifacts)), plan.offset, plan.runsOn, plan.isolation)
  }

  /** The dedup loop that `Behaviour::of`, `convert` and the exporter share. */
  method CollectUnique(patterns: seq<string>) returns (r: seq<string>)
    ensures r == Unique(TrimAll(patterns))
  {
    r := [];
    for i := 0 to |patterns|
      invariant r == Unique(TrimAll(patterns[..i]))
    {
      var pattern := Trim(patterns[i]);
      var done := TrimAll(patterns[..i + 1]);
      assert done[..|done| - 1] == TrimAll(patterns[..i]) && done[|done| - 1] == pattern;
      if pattern !in r {
        r := r + [pattern];
      }
    }
    assert patterns[..|patterns|] == patterns;
  }

  // ── How behaviour is put together ───────────────────────────────

  lemma StepsConcat(a: seq<PlanStep>, b: seq<PlanStep>)
    ensures Steps(a + b) == Steps(a) + Steps(b)
  {
    hide Trim;
  }

  /** The commands of one phase, as behaviour. */
  function Runs(phase: Phase, commands: seq<Command>): (r: seq<StepBehaviour>)
    ensures |r| == |commands|
  {
    seq(|commands|, i requires 0 <= i < |commands| => StepBehaviour(phase, Trim(commands[i].run), commands[i].platform))
  }

  lemma NamedRuns(phase: Phase, commands: seq<Command>)
    ensures Steps(Named(phase, commands)) == Runs(phase, commands)
  {
    hide Trim, Digits, Stage;
  }

  lemma RunsConcat(phase: Phase, a: seq<Command>, b: seq<Command>)
    ensures Runs(phase, a + b) == Runs(phase, a) + Runs(phase, b)
  {
    hide Trim;
  }

  /** What settings run, in order. */
  lemma SettingsRun(s: Settings, defaults: bool, bundle: bool)
    ensures BehaviourOf(PlanSettings(s, defaults, bundle)).steps
      == Runs(PreBuild, (if defaults && s.platforms != [] then UserCommands([PubGet()]) else []) + UserCommands(s.preBuild))
       + Runs(Build, (if defaults then AllPlatformBuilds(s, s.platforms, bundle) else []) + UserCommands(s.build))
       + Runs(PostBuild, UserCommands(s.postBuild))
  {
    hide Steps, Named, Runs, AllPlatformBuilds, UserCommands, PubGet, TrimmedVersion, TrimmedEnv, Unique;
    var preBuild := (if defaults && s.platforms != [] then UserCommands([PubGet()]) else []) + UserCommands(s.preBuild);
    var build := (if defaults then AllPlatformBuilds(s, s.platforms, bundle) else []) + UserCommands(s.build);
    var post := UserCommands(s.postBuild);
    StepsConcat(Named(PreBuild, preBuild) + Named(Build, build), Named(PostBuild, post));
    StepsConcat(Named(PreBuild, preBuild), Named(Build, build));
    NamedRuns(PreBuild, preBuild);
    NamedRuns(Build, build);
    NamedRuns(PostBuild, post);
  }

  lemma {:induction false} UniqueKept(texts: seq<string>)
    requires forall i, j :: 0 <= i < j < |texts| ==> texts[i] != texts[j]
    ensures Unique(texts) == texts
  {
    if texts != [] {
      var init := texts[..|texts| - 1];
      UniqueKept(init);
      assert texts == init + [texts[|texts| - 1]];
    }
  }

  // ── `plan_execution_config` step by step ────────────────────────

  lemma NextPlatform(s: Settings, i: nat, bundle: bool, done: seq<Command>)
    requires i < |s.platforms|
    ensures done + AllPlatformBuilds(s, s.platforms[i..], bundle)
      == done + PlatformBuilds(s, s.platforms[i], bundle) + AllPlatformBuilds(s, s.platforms[i + 1..], bundle)
  {
    hide PlatformBuilds;
    assert s.platforms[i..][1..] == s.platforms[i + 1..];
  }

  method PlatformCommands(s: Settings, bundle: bool) returns (build: seq<Command>)
    ensures build == AllPlatformBuilds(s, s.platforms, bundle)
  {
    hide PlatformCommand, BundleCommand, AllPlatformBuilds;
    build := [];
    assert s.platforms[0..] == s.platforms;
    for i := 0 to |s.platforms|
      invariant build + AllPlatformBuilds(s, s.platforms[i..], bundle) == AllPlatformBuilds(s, s.platforms, bundle)
    {
      var platform := s.platforms[i];
      ghost var was := build;
      NextPlatform(s, i, bundle, build);
      build := build + [Command(PlatformCommand(s, platform), Some(platform))];
      if BuildsBundle(s, platform, bundle) {
        build := build + [Command(BundleCommand(s), Some(Android))];
      }
      assert build == was + PlatformBuilds(s, platform, bundle);
    }
    NoPlatforms(s, bundle);
    assert build + [] == build;
  }

  lemma NoPlatforms(s: Settings, bundle: bool)
    ensures AllPlatformBuilds(s, s.platforms[|s.platforms|..], bundle) == []
  {
  }

  method NameCommands(phase: Phase, commands: seq<Command>) returns (steps: seq<PlanStep>)
    ensures steps == Named(phase, commands)
  {
    hide Stage, Digits;
    steps := [];
    for i := 0 to |commands|
      invariant steps == Named(phase, commands)[..i]
    {
      steps := steps + [PlanStep(Stage(phase) + "-" + Digits(i + 1), phase, commands[i].run, commands[i].platform, None)];
    }
  }

  /** `plan_execution_config`. */
  method PlanExecution(s: Settings, defaults: bool, bundle: bool) returns (plan: PipelinePlan)
    ensures plan == PlanSettings(s, defaults, bundle)
  {
    hide UserCommands, Named, AllPlatformBuilds, PubGet;
    var preBuild := [];
    if defaults && s.platforms != [] {
      preBuild := UserCommands([PubGet()]);
    }
    preBuild := preBuild + UserCommands(s.preBuild);
    var build := [];
    if defaults {
      build := PlatformCommands(s, bundle);
    }
    build := build + UserCommands(s.build);
    var pre := NameCommands(PreBuild, preBuild);
    var builds := NameCommands(Build, build);
    var post := NameCommands(PostBuild, UserCommands(s.postBuild));
    plan := PipelinePlan(
      None, s.platforms, s.flutterVersion, pre + builds + post, s.env, s.artifacts, s.offset, s.runsOn, s.isolation);
  }

  // ── The Play bundle's arguments ─────────────────────────────────

  function ApkOnly(): string {
    "--split-per-abi"
  }

  lemma BundleArgsFirst(args: seq<string>)
    requires args != []
    ensures BundleArgs(args) == (if args[0] == ApkOnly() then [] else [args[0]]) + BundleArgs(args[1..])
  {
  }

  lemma NoBundleArgs()
    ensures BundleArgs([]) == []
  {
  }

  /** The bundle gets every argument but the one for APKs, in order. */
  lemma {:induction false} BundleArgsConcat(a: seq<string>, b: seq<string>)
    ensures BundleArgs(a + b) == BundleArgs(a) + BundleArgs(b)
  {
    hide BundleArgs, ApkOnly;
    if a == [] {
      assert a + b == b;
      NoBundleArgs();
    } else {
      BundleArgsFirst(a);
      BundleArgsFirst(a + b);
      BundleArgsConcat(a[1..], b);
      assert (a + b)[1..] == a[1..] + b;
    }
  }

  lemma {:induction false} BundleArgsAre(args: seq<string>)
    ensures ApkOnly() !in BundleArgs(args)
    ensures multiset(BundleArgs(args)) == multiset(args)[ApkOnly() := 0]
    ensures ApkOnly() !in args ==> BundleArgs(args) == args
  {
    if args != [] {
      BundleArgsAre(args[1..]);
      assert args == [args[0]] + args[1..];
    }
  }

  // ── What behaviour tells ────────────────────────────────────────

  predicate SameText(a: string, b: string) {
    Trim(a) == Trim(b)
  }

  predicate Blank(version: Option<string>) {
    version.None? || IsBlank(version.value)
  }

  /** Plans of equal behaviour run the same commands, step by step, in the same phase and for
      the same platform, with the same env, version, patterns and settings, up to blanks. */
  lemma BehaviourTells(p: PipelinePlan, q: PipelinePlan)
    requires BehaviourOf(p) == BehaviourOf(q)
    ensures |p.steps| == |q.steps| && |p.env| == |q.env|
    ensures forall i :: 0 <= i < |p.steps| ==>
      && p.steps[i].phase == q.steps[i].phase && p.steps[i].platform == q.steps[i].platform && SameText(p.steps[i].run, q.steps[i].run)
    ensures forall i :: 0 <= i < |p.env| ==> SameText(p.env[i].key, q.env[i].key) && SameText(p.env[i].value, q.env[i].value)
    ensures Blank(p.flutterVersion) == Blank(q.flutterVersion)
    ensures !Blank(p.flutterVersion) ==> SameText(p.flutterVersion.value, q.flutterVersion.value)
    ensures forall x :: x in TrimAll(p.artifacts) <==> x in TrimAll(q.artifacts)
    ensures p.platforms == q.platforms && p.offset == q.offset && p.runsOn == q.runsOn && p.isolation == q.isolation
  {
    hide Trim, Unique, TrimAll;
    forall i | 0 <= i < |p.steps|
      ensures p.steps[i].phase == q.steps[i].phase && p.steps[i].platform == q.steps[i].platform && SameText(p.steps[i].run, q.steps[i].run)
    {
      assert Steps(p.steps)[i] == Steps(q.steps)[i];
    }
    forall i | 0 <= i < |p.env|
      ensures SameText(p.env[i].key, q.env[i].key) && SameText(p.env[i].value, q.env[i].value)
    {
      assert TrimmedEnv(p.env)[i] == TrimmedEnv(q.env)[i];
    }
    assert forall x :: x in TrimAll(p.artifacts) <==> x in Unique(TrimAll(p.artifacts));
  }
}

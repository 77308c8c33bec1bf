/** Lowering a version 2 file to a plan. */
module Lower {
  import opened Wrappers
  import opened Text
  import opened References
  import opened Expansion
  import opened Plan
  import opened Labels
  import opened Triggers
  import Resolver

  // ── A version 2 file ────────────────────────────────────────────

  datatype TargetSpec = TargetSpec(build: Option<string>, artifacts: Option<seq<string>>)

  datatype PlatformTarget = PlatformTarget(platform: Platform, spec: TargetSpec)

  /** One entry of `steps`: the targets, a top-level step by name, or a step. */
  datatype StepEntry = BuildHere | Ref(name: string) | Inline(name: string, run: string)

  /** An ordered mapping of names to texts. */
  type Pairs = seq<(string, string)>

  datatype Workflow = Workflow(
    targets: Option<seq<PlatformTarget>>, flavors: Option<seq<string>>, steps: Option<seq<StepEntry>>,
    env: Pairs, vars: Pairs)

  datatype Config = Config(
    flutter: Option<string>, flavors: seq<string>, targets: seq<PlatformTarget>,
    steps: Option<seq<StepEntry>>, env: Pairs, vars: Pairs, on: Option<TriggerSpec>,
    workflows: seq<(string, Workflow)>, runsOn: seq<string>, isolation: Isolation, offset: int)

  // ── Resolution ──────────────────────────────────────────────────

  /** What the resolver answers when no limit is reached. */
  ghost function Resolution(vars: Table, flavor: Option<string>, text: string): Option<string> {
    if n: nat :| Expand(vars, flavor, text, n).Some? then Expand(vars, flavor, text, n) else None
  }

  lemma ResolutionIs(vars: Table, flavor: Option<string>, text: string, result: string)
    requires Expands(vars, flavor, text, result)
    ensures Resolution(vars, flavor, text) == Some(result)
  {
    hide Expand;
    var n: nat :| Expand(vars, flavor, text, n) == Some(result);
    var m: nat :| Expand(vars, flavor, text, m).Some? && Resolution(vars, flavor, text) == Expand(vars, flavor, text, m);
    assert Expands(vars, flavor, text, Expand(vars, flavor, text, m).value);
    ExpandsOnce(vars, flavor, text, result, Expand(vars, flavor, text, m).value);
  }

  /** Every answer of the stateful resolver that is not a limit is this one. */
  lemma AnswersAreResolution(vars: Table, text: string, scope: Resolver.Scope, r: Resolver.Resolved)
    requires Resolver.Answers(vars, text, scope, r)
    ensures r.Ok? ==> Resolution(vars, Resolver.FlavorIn(scope), text) == Some(r.text)
    ensures r.Err? && !Resolver.IsLimit(r.error) ==> Resolution(vars, Resolver.FlavorIn(scope), text) == None
  {
    hide Expand;
    if r.Ok? {
      ResolutionIs(vars, Resolver.FlavorIn(scope), text, r.text);
    }
  }

  // ── Workflows ───────────────────────────────────────────────────

  datatype Selected = NoWorkflow | Named(name: string, workflow: Workflow) | Unknown

  function FindWorkflow(workflows: seq<(string, Workflow)>, name: string): Selected {
    if workflows == [] then Unknown
    else if workflows[0].0 == name then Named(name, workflows[0].1)
    else FindWorkflow(workflows[1..], name)
  }

  /** `select_workflow`. */
  function SelectWorkflow(c: Config, name: Option<string>): Selected {
    if name.Some? then FindWorkflow(c.workflows, name.value)
    else if c.workflows == [] then NoWorkflow
    else if |c.workflows| == 1 then Named(c.workflows[0].0, c.workflows[0].1)
    else Unknown
  }

  function Put(pairs: Pairs, name: string, value: string): Pairs {
    if pairs == [] then [(name, value)]
    else if pairs[0].0 == name then [(name, value)] + pairs[1..]
    else [pairs[0]] + Put(pairs[1..], name, value)
  }

  /** A workflow's vars and env replace the top-level ones by name. */
  function Overlay(base: Pairs, over: Pairs): Pairs {
    if over == [] then base else Put(Overlay(base, over[..|over| - 1]), over[|over| - 1].0, over[|over| - 1].1)
  }

  // ── Targets ─────────────────────────────────────────────────────

  datatype Target = Target(platform: Platform, build: string, artifacts: Option<seq<string>>)

  function BaseTarget(targets: seq<PlatformTarget>, platform: Platform): Option<TargetSpec> {
    if targets == [] then None
    else if targets[0].platform == platform then Some(targets[0].spec)
    else BaseTarget(targets[1..], platform)
  }

  /** Top-level targets; one without a build is left out. */
  function TopTargets(targets: seq<PlatformTarget>): seq<Target> {
    if targets == [] then []
    else
      var spec := targets[0].spec;
      (if spec.build.None? then [] else [Target(targets[0].platform, spec.build.value, spec.artifacts)])
      + TopTargets(targets[1..])
  }

  /** A workflow's targets over the top-level ones; one without any build is an error. */
  function WorkflowTargets(c: Config, overrides: seq<PlatformTarget>): Option<seq<Target>> {
    if overrides == [] then Some([])
    else
      var base := BaseTarget(c.targets, overrides[0].platform);
      var spec := overrides[0].spec;
      var build := if spec.build.Some? then spec.build else if base.Some? then base.value.build else None;
      var artifacts := if spec.artifacts.Some? then spec.artifacts else if base.Some? then base.value.artifacts else None;
      var rest := WorkflowTargets(c, overrides[1..]);
      if build.None? || rest.None? then None
      else Some([Target(overrides[0].platform, build.value, artifacts)] + rest.value)
  }

  function TargetsOf(c: Config, w: Selected): Option<seq<Target>> {
    if w.Named? && w.workflow.targets.Some? then WorkflowTargets(c, w.workflow.targets.value)
    else Some(TopTargets(c.targets))
  }

  predicate HasPlatform(targets: seq<Target>, platform: Platform) {
    exists i :: 0 <= i < |targets| && targets[i].platform == platform
  }

  predicate ValidSelection(targets: seq<Target>, selected: seq<Platform>) {
    && selected != []
    && (forall i, j :: 0 <= i < j < |selected| ==> selected[i] != selected[j])
    && (forall i :: 0 <= i < |selected| ==> HasPlatform(targets, selected[i]))
  }

  function Retained(targets: seq<Target>, selected: seq<Platform>): seq<Target> {
    if targets == [] then []
    else (if targets[0].platform in selected then [targets[0]] else []) + Retained(targets[1..], selected)
  }

  function SelectTargets(targets: seq<Target>, selected: Option<seq<Platform>>): Option<seq<Target>> {
    if selected.None? then Some(targets)
    else if !ValidSelection(targets, selected.value) then None
    else Some(Retained(targets, selected.value))
  }

  // ── Build steps ─────────────────────────────────────────────────

  function FlavorsOf(c: Config, w: Selected): seq<string> {
    if w.Named? && w.workflow.flavors.Some? then w.workflow.flavors.value else c.flavors
  }

  /** One scope per flavor, or a single one without a flavor. */
  function Scopes(flavors: seq<string>): (scopes: seq<Option<string>>)
    ensures scopes != []
  {
    if flavors == [] then [None] else seq(|flavors|, i requires 0 <= i < |flavors| => Some(flavors[i]))
  }

  function Title(platform: Platform): string {
    match platform
    case Android => "Android"
    case Ios => "iOS"
    case Macos => "macOS"
  }

  function BuildName(platform: Platform, flavor: Option<string>): string {
    if flavor.None? then "Build " + Title(platform)
    else "Build " + Title(platform) + " (" + flavor.value + ")"
  }

  ghost function BuildStep(vars: Table, target: Target, flavor: Option<string>): Option<PlanStep> {
    var run := Resolution(vars, flavor, target.build);
    if run.None? then None
    else Some(PlanStep(BuildName(target.platform, flavor), Build, Trim(run.value), Some(target.platform), flavor))
  }

  ghost function TargetBuilds(vars: Table, target: Target, scopes: seq<Option<string>>): Option<seq<PlanStep>> {
    if scopes == [] then Some([])
    else
      var first, rest := BuildStep(vars, target, scopes[0]), TargetBuilds(vars, target, scopes[1..]);
      if first.None? || rest.None? then None else Some([first.value] + rest.value)
  }

  ghost function AllBuilds(vars: Table, targets: seq<Target>, scopes: seq<Option<string>>): Option<seq<PlanStep>> {
    if targets == [] then Some([])
    else
      var first, rest := TargetBuilds(vars, targets[0], scopes), AllBuilds(vars, targets[1..], scopes);
      if first.None? || rest.None? then None else Some(first.value + rest.value)
  }

  // ── Steps around them ───────────────────────────────────────────

  datatype Around = Around(steps: seq<PlanStep>, names: set<string>, placed: bool) | BadSteps

  function FindInline(shared: seq<StepEntry>, name: string): Option<StepEntry> {
    if shared == [] then None
    else if shared[0].Inline? && Trim(shared[0].name) == Trim(name) then Some(shared[0])
    else FindInline(shared[1..], name)
  }

  function NamesOfSteps(steps: seq<PlanStep>): (names: set<string>)
    ensures forall name :: name in names <==> exists i :: 0 <= i < |steps| && steps[i].name == name
  {
    set i | 0 <= i < |steps| :: steps[i].name
  }

  /** One step: its name must be new and its command must resolve. */
  ghost function AddStep(vars: Table, before: Around, name: string, run: string): Around
    requires before.Around?
  {
    var resolved := Resolution(vars, None, run);
    if Trim(name) in before.names || resolved.None? then BadSteps
    else
      var phase := if before.placed then PostBuild else PreBuild;
      before.(steps := before.steps + [PlanStep(Trim(name), phase, Trim(resolved.value), None, None)],
              names := before.names + {Trim(name)})
  }

  ghost function AddEntry(vars: Table, builds: seq<PlanStep>, shared: seq<StepEntry>, before: Around, entry: StepEntry): Around
    requires before.Around?
  {
    match entry
    case BuildHere => if before.placed then before else before.(steps := before.steps + builds, placed := true)
    case Inline(name, run) => AddStep(vars, before, name, run)
    case Ref(name) =>
      var step := FindInline(shared, name);
      if step.None? || !step.value.Inline? then before else AddStep(vars, before, step.value.name, step.value.run)
  }

  ghost function LowerEntries(vars: Table, builds: seq<PlanStep>, shared: seq<StepEntry>, entries: seq<StepEntry>, k: nat): Around
    requires k <= |entries|
  {
    if k == 0 then Around([], NamesOfSteps(builds), false)
    else
      var before := LowerEntries(vars, builds, shared, entries, k - 1);
      if before.BadSteps? then BadSteps else AddEntry(vars, builds, shared, before, entries[k - 1])
  }

  function EntriesOf(c: Config, w: Selected): seq<StepEntry> {
    if w.Named? && w.workflow.steps.Some? then w.workflow.steps.value
    else if c.steps.Some? then c.steps.value
    else []
  }

  ghost function LowerSteps(vars: Table, builds: seq<PlanStep>, shared: seq<StepEntry>, entries: seq<StepEntry>): Option<seq<PlanStep>> {
    var around := LowerEntries(vars, builds, shared, entries, |entries|);
    if around.BadSteps? then None
    else if around.placed then Some(around.steps)
    else Some(around.steps + builds)
  }

  // ── Env and artifacts ───────────────────────────────────────────

  ghost function LowerEnv(vars: Table, env: Pairs): Option<seq<EnvVar>> {
    if env == [] then Some([])
    else
      var value, rest := Resolution(vars, None, env[0].1), LowerEnv(vars, env[1..]);
      if value.None? || rest.None? then None
      else Some([EnvVar(Trim(env[0].0), Trim(value.value))] + rest.value)
  }

  /** The default patterns, by segment. */
  function DefaultSegments(platform: Platform): seq<seq<string>> {
    match platform
    case Android => [["build", "app", "outputs", "flutter-apk", "*.apk"], ["build", "app", "outputs", "bundle", "**", "*.aab"]]
    case Ios => [["build", "ios", "ipa", "*.ipa"]]
    case Macos => [["build", "macos", "Build", "Products", "Release", "*.app"]]
  }

  function DefaultArtifacts(platform: Platform): (patterns: seq<string>)
    ensures |patterns| == |DefaultSegments(platform)|
    ensures forall i :: 0 <= i < |patterns| ==> patterns[i] == Join(DefaultSegments(platform)[i], "/")
  {
    var segments := DefaultSegments(platform);
    seq(|segments|, i requires 0 <= i < |segments| => Join(segments[i], "/"))
  }

  function PatternsOf(target: Target): seq<string> {
    if target.artifacts.Some? then target.artifacts.value else DefaultArtifacts(target.platform)
  }

  predicate IsWildcard(c: char) {
    c == '*' || c == '?'
  }

  /** `validate_artifact_pattern`, on the trimmed pattern. */
  predicate IsPattern(pattern: string) {
    && pattern != [] && Size(pattern) <= 512
    && (exists i :: 0 <= i < |pattern| && IsWildcard(pattern[i]))
    && '\\' !in pattern && pattern[0] != '/'
    && forall i :: 0 <= i < |Split(pattern, '/')| ==> Split(pattern, '/')[i] !in {"", ".", ".."}
  }

  predicate IsArtifactPattern(pattern: string) {
    IsPattern(Trim(pattern))
  }

  ghost function LowerPattern(vars: Table, pattern: string, flavor: Option<string>): Option<string> {
    var resolved := Resolution(vars, flavor, pattern);
    if resolved.None? || Contains(Trim(resolved.value), OPEN) || !IsArtifactPattern(Trim(resolved.value)) then None
    else Some(Trim(resolved.value))
  }

  ghost function LowerScoped(vars: Table, pattern: string, scopes: seq<Option<string>>): Option<seq<string>> {
    if scopes == [] then Some([])
    else
      var first, rest := LowerPattern(vars, pattern, scopes[0]), LowerScoped(vars, pattern, scopes[1..]);
      if first.None? || rest.None? then None else Some([first.value] + rest.value)
  }

  ghost function LowerPatterns(vars: Table, patterns: seq<string>, scopes: seq<Option<string>>): Option<seq<string>> {
    if patterns == [] then Some([])
    else
      var first, rest := LowerScoped(vars, patterns[0], scopes), LowerPatterns(vars, patterns[1..], scopes);
      if first.None? || rest.None? then None else Some(first.value + rest.value)
  }

  ghost function AllPatterns(vars: Table, targets: seq<Target>, scopes: seq<Option<string>>): Option<seq<string>> {
    if targets == [] then Some([])
    else
      var first, rest := LowerPatterns(vars, PatternsOf(targets[0]), scopes), AllPatterns(vars, targets[1..], scopes);
      if first.None? || rest.None? then None else Some(first.value + rest.value)
  }

  // ── The plan ────────────────────────────────────────────────────

  /** `ConfigV2::lower`, apart from limits: no plan when anything is wrong. */
  ghost function LowerConfig(c: Config, workflow: Option<string>, selected: Option<seq<Platform>>): Option<PipelinePlan> {
    var w := SelectWorkflow(c, workflow);
    var all := TargetsOf(c, w);
    if w.Unknown? || all.None? then None
    else
      var targets := SelectTargets(all.value, selected);
      if targets.None? then None else LowerTargets(c, w, targets.value)
  }

  ghost function LowerTargets(c: Config, w: Selected, targets: seq<Target>): Option<PipelinePlan> {
    var vars := Resolver.TableFor(if w.Named? then Overlay(c.vars, w.workflow.vars) else c.vars);
    var scopes := Scopes(FlavorsOf(c, w));
    var builds := AllBuilds(vars, targets, scopes);
    if builds.None? then None
    else
      var steps := LowerSteps(vars, builds.value, if c.steps.Some? then c.steps.value else [], EntriesOf(c, w));
      var env := LowerEnv(vars, if w.Named? then Overlay(c.env, w.workflow.env) else c.env);
      var artifacts := AllPatterns(vars, targets, scopes);
      if steps.None? || env.None? || artifacts.None? then None
      else Some(PipelinePlan(
        if w.Named? then Some(w.name) else None,
        seq(|targets|, i requires 0 <= i < |targets| => targets[i].platform),
        if c.flutter.Some? then Some(Trim(c.flutter.value)) else None,
        steps.value, env.value, Unique(artifacts.value), c.offset,
        if NormalizeLabels(c.runsOn).Some? then NormalizeLabels(c.runsOn).value else [], c.isolation))
  }
}

/** What `ConfigV2::parse` checks of a file without workflows. */
module FileChecks {
  import opened Wrappers
  import opened Text
  import opened References
  import opened Plan
  import opened Labels
  import opened Triggers
  import opened Lower
  import Resolver

  const MAX_FLAVORS: nat := 32
  const MAX_STEPS: nat := 100
  const MAX_ARTIFACT_PATTERNS: nat := 64
  const MAX_ENV_ENTRIES: nat := 128
  const MAX_VARS: nat := 128
  const MAX_TRIGGER_PATTERNS: nat := 64
  const MAX_COMMAND_BYTES: nat := 32 * 1024
  const MAX_RAW_PATTERN_BYTES: nat := 2048
  const MAX_STEP_NAME_LENGTH: nat := 100
  const MAX_STORE_VERSION_CODE: int := 2_100_000_000

  // ── Sizes ───────────────────────────────────────────────────────

  predicate TargetSizeOk(spec: TargetSpec) {
    && (spec.build.Some? ==> Size(spec.build.value) <= MAX_COMMAND_BYTES)
    && (spec.artifacts.Some? ==>
          && |spec.artifacts.value| <= MAX_ARTIFACT_PATTERNS
          && forall i :: 0 <= i < |spec.artifacts.value| ==> Size(spec.artifacts.value[i]) <= MAX_RAW_PATTERN_BYTES)
  }

  function BranchCount(t: Option<BranchTrigger>): nat {
    if t.Some? && t.value.Branches? then |t.value.patterns| else 0
  }

  predicate TriggersSizeOk(on: TriggerSpec) {
    && BranchCount(on.push) <= MAX_TRIGGER_PATTERNS && BranchCount(on.pullRequest) <= MAX_TRIGGER_PATTERNS
    && |on.tag| <= MAX_TRIGGER_PATTERNS && |on.paths| <= MAX_TRIGGER_PATTERNS
  }

  /** `size_errors` finds nothing. */
  predicate SizeOk(c: Config) {
    && |c.flavors| <= MAX_FLAVORS && |c.env| <= MAX_ENV_ENTRIES && |c.vars| <= MAX_VARS
    && (c.steps.Some? ==>
          && |c.steps.value| <= MAX_STEPS
          && forall i :: 0 <= i < |c.steps.value| && c.steps.value[i].Inline? ==> Size(c.steps.value[i].run) <= MAX_COMMAND_BYTES)
    && (forall i :: 0 <= i < |c.targets| ==> TargetSizeOk(c.targets[i].spec))
    && (c.on.Some? ==> TriggersSizeOk(c.on.value))
  }

  // ── Shape ───────────────────────────────────────────────────────

  /** `char::is_control`. */
  predicate IsControl(c: char) {
    c as int < 0x20 || 0x7F <= c as int <= 0x9F
  }

  predicate StepNameFits(name: string) {
    && Trim(name) != [] && Size(Trim(name)) <= MAX_STEP_NAME_LENGTH
    && forall i :: 0 <= i < |Trim(name)| ==> !IsControl(Trim(name)[i])
  }

  /** `check_steps` on top-level steps: `build` once at most, no references, and every
      step named once, in a short single line, with a command. */
  predicate StepsOk(steps: seq<StepEntry>) {
    && (forall i :: 0 <= i < |steps| ==> !steps[i].Ref?)
    && (forall i, j :: 0 <= i < j < |steps| ==> !(steps[i].BuildHere? && steps[j].BuildHere?))
    && (forall i :: 0 <= i < |steps| && steps[i].Inline? ==> StepNameFits(steps[i].name) && !IsBlank(steps[i].run))
    && (forall i, j :: 0 <= i < j < |steps| && steps[i].Inline? && steps[j].Inline? ==> Trim(steps[i].name) != Trim(steps[j].name))
  }

  predicate IsIdentifierChar(c: char) {
    'a' <= c <= 'z' || 'A' <= c <= 'Z' || '0' <= c <= '9'
  }

  predicate IsIdentifier(name: string) {
    && name != [] && IsIdentifierChar(name[0]) && Size(name) <= 64
    && forall i :: 1 <= i < |name| ==> IsIdentifierChar(name[i]) || name[i] == '_' || name[i] == '-'
  }

  predicate FlavorsOk(flavors: seq<string>) {
    && (forall i :: 0 <= i < |flavors| ==> IsIdentifier(flavors[i]))
    && (forall i, j :: 0 <= i < j < |flavors| ==> flavors[i] != flavors[j])
  }

  predicate TargetOk(spec: TargetSpec) {
    && spec.build.Some? && !IsBlank(spec.build.value)
    && (spec.artifacts.Some? ==> spec.artifacts.value != [])
  }

  /** An ordered mapping has each key once; `check_keys` wants them valid. */
  predicate KeysOk(pairs: Pairs) {
    && (forall i :: 0 <= i < |pairs| ==> IsEnvKey(pairs[i].0))
    && (forall i, j :: 0 <= i < j < |pairs| ==> pairs[i].0 != pairs[j].0)
  }

  predicate NoBlank(patterns: seq<string>) {
    forall i :: 0 <= i < |patterns| ==> !IsBlank(patterns[i])
  }

  predicate BranchesOk(t: Option<BranchTrigger>) {
    t.Some? && t.value.Branches? ==> t.value.patterns != [] && NoBlank(t.value.patterns)
  }

  /** `check_triggers` finds nothing. */
  predicate TriggersOk(on: TriggerSpec) {
    BranchesOk(on.push) && BranchesOk(on.pullRequest) && NoBlank(on.tag) && NoBlank(on.paths)
  }

  predicate OffsetOk(offset: int) {
    0 <= offset < MAX_STORE_VERSION_CODE
  }

  /** `shape_errors` finds nothing. */
  predicate ShapeOk(c: Config) {
    && (c.flutter.Some? ==> !IsBlank(c.flutter.value))
    && FlavorsOk(c.flavors)
    && c.targets != []
    && (forall i :: 0 <= i < |c.targets| ==> TargetOk(c.targets[i].spec))
    && (forall i, j :: 0 <= i < j < |c.targets| ==> c.targets[i].platform != c.targets[j].platform)
    && (c.steps.Some? ==> StepsOk(c.steps.value))
    && KeysOk(c.env) && KeysOk(c.vars)
    && (c.on.Some? ==> TriggersOk(c.on.value))
    && OffsetOk(c.offset)
    && NormalizeLabels(c.runsOn).Some?
  }

  /** `ConfigV2::parse` accepts the file: sizes, shape, vars and its plan. */
  ghost predicate FileOk(c: Config) {
    && SizeOk(c) && ShapeOk(c)
    && (forall i :: 0 <= i < |c.vars| ==> Resolution(Resolver.TableFor(c.vars), Some("flavor"), c.vars[i].1).Some?)
    && LowerConfig(c, None, None).Some?
  }
}

/** The texts in the plan of a file that the form might hold. */
module ImportTexts {
  import opened Wrappers
  import opened Text
  import opened References
  import opened SecretText
  import opened Expansion
  import opened Plan
  import opened Labels
  import opened Lower
  import opened FileChecks
  import opened GeneratedFile
  import opened GeneratedNeeds
  import opened ImportPlan
  import Resolver

  // ── Sizes ───────────────────────────────────────────────────────

  lemma SizeOfPart(text: string, from: nat, to: nat)
    requires from <= to <= |text|
    ensures Size(text[from..to]) <= Size(text)
  {
    hide Utf8;
    Utf8Concat(text[..from], text[from..]);
    assert text == text[..from] + text[from..];
    var rest := text[from..];
    Utf8Concat(rest[..to - from], rest[to - from..]);
    assert rest == rest[..to - from] + rest[to - from..];
    assert rest[..to - from] == text[from..to];
  }

  lemma TrimmedSize(text: string)
    ensures Size(Trim(text)) <= Size(text)
  {
    hide Size, Trim, IsSpace;
    var lead := TrimLead(text);
    SizeOfPart(text, lead, lead + |Trim(text)|);
  }

  // ── Commands ────────────────────────────────────────────────────

  ghost predicate GoodRun(run: string) {
    SecretsOnly(run) && IsTrimmed(run) && run != [] && Size(run) <= MAX_COMMAND_BYTES
  }

  ghost predicate GoodRuns(steps: seq<PlanStep>) {
    forall i :: 0 <= i < |steps| ==> GoodRun(steps[i].run)
  }

  predicate GoodCommand(text: string) {
    !IsBlank(text) && Size(text) <= MAX_COMMAND_BYTES
  }

  /** Without vars and flavors a command runs as written, trimmed. */
  lemma LoweredRun(text: string)
    requires Resolution(Resolver.TableFor([]), None, text).Some? && GoodCommand(text)
    ensures Resolution(Resolver.TableFor([]), None, text) == Some(text) && GoodRun(Trim(text))
  {
    hide Resolution, SecretsOnly, Resolver.TableFor, Size, Trim, IsTrimmed;
    ResolvesOnlySecrets(text);
    SecretsTrim(text);
    TrimTrimmed(text);
    TrimmedSize(text);
  }

  lemma {:induction false} BuildsGood(targets: seq<Target>, scopes: seq<Option<string>>)
    requires scopes == [None] && AllBuilds(Resolver.TableFor([]), targets, scopes).Some?
    requires forall i :: 0 <= i < |targets| ==> GoodCommand(targets[i].build)
    ensures GoodRuns(AllBuilds(Resolver.TableFor([]), targets, scopes).value)
  {
    hide Resolution, GoodRun, GoodCommand, Resolver.TableFor, BuildName, Trim;
    if targets != [] {
      BuildsGood(targets[1..], scopes);
      assert TargetBuilds(Resolver.TableFor([]), targets[0], scopes[1..]) == Some([]);
      LoweredRun(targets[0].build);
    }
  }

  ghost predicate GoodEntries(entries: seq<StepEntry>) {
    && (forall i :: 0 <= i < |entries| ==> !entries[i].Ref?)
    && (forall i :: 0 <= i < |entries| && entries[i].Inline? ==> GoodCommand(entries[i].run))
  }

  lemma {:induction false} EntriesGood(builds: seq<PlanStep>, shared: seq<StepEntry>, entries: seq<StepEntry>, k: nat)
    requires k <= |entries| && LowerEntries(Resolver.TableFor([]), builds, shared, entries, k).Around?
    requires GoodRuns(builds) && GoodEntries(entries)
    ensures GoodRuns(LowerEntries(Resolver.TableFor([]), builds, shared, entries, k).steps)
    decreases k
  {
    hide Resolution, GoodRun, GoodCommand, Resolver.TableFor, NamesOfSteps, Trim;
    if k > 0 {
      EntriesGood(builds, shared, entries, k - 1);
      if entries[k - 1].Inline? {
        LoweredRun(entries[k - 1].run);
      }
    }
  }

  lemma StepsGood(builds: seq<PlanStep>, shared: seq<StepEntry>, entries: seq<StepEntry>)
    requires LowerSteps(Resolver.TableFor([]), builds, shared, entries).Some?
    requires GoodRuns(builds) && GoodEntries(entries)
    ensures GoodRuns(LowerSteps(Resolver.TableFor([]), builds, shared, entries).value)
  {
    hide LowerEntries, GoodRun, GoodEntries, Resolver.TableFor;
    EntriesGood(builds, shared, entries, |entries|);
  }

  // ── Env ─────────────────────────────────────────────────────────

  ghost predicate GoodEntry(entry: EnvVar) {
    IsEnvKey(entry.key) && IsTrimmed(entry.key) && SecretsOnly(entry.value) && IsTrimmed(entry.value)
  }

  ghost predicate GoodEnv(env: seq<EnvVar>) {
    && |env| <= MAX_ENV_ENTRIES
    && (forall i :: 0 <= i < |env| ==> GoodEntry(env[i]))
    && (forall i, j :: 0 <= i < j < |env| ==> env[i].key != env[j].key)
  }

  lemma KeyIsTrimmed(key: string)
    requires IsEnvKey(key)
    ensures Trim(key) == key && IsTrimmed(key)
  {
    hide Trim;
    KeyCharIsNoBlank(key[0]);
    KeyCharIsNoBlank(key[|key| - 1]);
    TrimTrimmed(key);
  }

  lemma KeyCharIsNoBlank(c: char)
    requires IsKeyStart(c) || '0' <= c <= '9'
    ensures !IsSpace(c)
  {
  }

  lemma {:induction false} EnvGood(env: Pairs)
    requires LowerEnv(Resolver.TableFor([]), env).Some?
    requires forall i :: 0 <= i < |env| ==> IsEnvKey(env[i].0)
    ensures
      var r := LowerEnv(Resolver.TableFor([]), env).value;
      |r| == |env| && forall i :: 0 <= i < |r| ==> r[i].key == env[i].0 && GoodEntry(r[i])
  {
    hide Resolution, Resolver.TableFor, Trim, SecretsOnly, IsEnvKey, IsTrimmed;
    if env != [] {
      EnvGood(env[1..]);
      KeyIsTrimmed(env[0].0);
      ResolvesOnlySecrets(env[0].1);
      SecretsTrim(env[0].1);
      TrimTrimmed(env[0].1);
    }
  }

  // ── The whole plan ──────────────────────────────────────────────

  ghost predicate FormTexts(plan: PipelinePlan) {
    && GoodRuns(plan.steps) && GoodEnv(plan.env) && OffsetOk(plan.offset)
  }

  lemma {:induction false} TargetsGood(targets: seq<PlatformTarget>)
    requires forall i :: 0 <= i < |targets| ==> TargetOk(targets[i].spec) && TargetSizeOk(targets[i].spec)
    ensures forall i :: 0 <= i < |TopTargets(targets)| ==> GoodCommand(TopTargets(targets)[i].build)
  {
    hide IsBlank, Size;
    if targets != [] {
      TargetsGood(targets[1..]);
      assert TargetOk(targets[0].spec) && TargetSizeOk(targets[0].spec);
    }
  }

  lemma EntriesOk(c: Config)
    requires SizeOk(c) && ShapeOk(c) && c.workflows == []
    ensures GoodEntries(EntriesOf(c, NoWorkflow))
  {
    hide IsBlank, Size, StepNameFits, Trim, TargetOk, TargetSizeOk, KeysOk, TriggersOk, TriggersSizeOk, NormalizeLabels, FlavorsOk;
  }

  lemma FileHasFormTexts(c: Config)
    requires FormFile(c) && FileOk(c)
    ensures FormTexts(LowerConfig(c, None, None).value)
  {
    hide AllBuilds, LowerSteps, LowerEnv, AllPatterns, NormalizeLabels, Unique, TopTargets, Resolver.TableFor, Trim, StepsOk, TriggersOk,
      TriggersSizeOk, TargetOk, TargetSizeOk, EntriesOf, Resolution, GoodRun, GoodEntries, GoodEntry, IsEnvKey, OffsetOk, FlavorsOk;
    var vars, targets, scopes := Resolver.TableFor([]), TopTargets(c.targets), Scopes([]);
    TargetsGood(c.targets);
    BuildsGood(targets, scopes);
    EntriesOk(c);
    StepsGood(AllBuilds(vars, targets, scopes).value, if c.steps.Some? then c.steps.value else [], EntriesOf(c, NoWorkflow));
    EnvGood(c.env);
  }
}

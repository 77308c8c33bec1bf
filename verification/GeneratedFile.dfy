/** The files that migration and export generate: targets, steps around them, env and one
    artifact list, with no vars, flavors or workflows; and what such a file plans to. */
module GeneratedFile {
  import opened Wrappers
  import opened Text
  import opened References
  import opened Expansion
  import opened SecretText
  import opened StepNames
  import opened Plan
  import opened Labels
  import opened Triggers
  import opened Lower
  import opened PlanShape
  import opened FileChecks
  import Resolver

  datatype Step = Step(name: string, run: string)

  datatype BuildTarget = BuildTarget(platform: Platform, build: string)

  /** `artifacts` is the explicit list of every target, or none for the defaults. */
  datatype Generated = Generated(
    flutter: Option<string>, targets: seq<BuildTarget>, artifacts: Option<seq<string>>,
    before: seq<Step>, after: seq<Step>, env: Pairs, on: Option<TriggerSpec>,
    runsOn: seq<string>, isolation: Isolation, offset: int)

  function Entries(steps: seq<Step>): (entries: seq<StepEntry>)
    ensures |entries| == |steps|
    ensures forall i :: 0 <= i < |steps| ==> entries[i] == Inline(steps[i].name, steps[i].run)
  {
    seq(|steps|, i requires 0 <= i < |steps| => Inline(steps[i].name, steps[i].run))
  }

  function TargetEntries(g: Generated): (targets: seq<PlatformTarget>)
    ensures |targets| == |g.targets|
    ensures forall i :: 0 <= i < |targets| ==>
      targets[i] == PlatformTarget(g.targets[i].platform, TargetSpec(Some(g.targets[i].build), g.artifacts))
  {
    seq(|g.targets|, i requires 0 <= i < |g.targets| =>
      PlatformTarget(g.targets[i].platform, TargetSpec(Some(g.targets[i].build), g.artifacts)))
  }

  /** The file as written: `steps` is left out when there are none. */
  function FileFor(g: Generated): Config {
    Config(
      g.flutter, [], TargetEntries(g),
      if g.before == [] && g.after == [] then None else Some(Entries(g.before) + [BuildHere] + Entries(g.after)),
      g.env, [], g.on, [], g.runsOn, g.isolation, g.offset)
  }

  // ── What it plans to ────────────────────────────────────────────

  function StepsIn(phase: Phase, steps: seq<Step>): (r: seq<PlanStep>)
    ensures |r| == |steps|
    ensures forall i :: 0 <= i < |steps| ==> r[i] == PlanStep(Trim(steps[i].name), phase, Trim(steps[i].run), None, None)
  {
    seq(|steps|, i requires 0 <= i < |steps| => PlanStep(Trim(steps[i].name), phase, Trim(steps[i].run), None, None))
  }

  function BuildsOf(targets: seq<BuildTarget>): (r: seq<PlanStep>)
    ensures |r| == |targets|
    ensures forall i :: 0 <= i < |targets| ==>
      r[i] == PlanStep(BuildName(targets[i].platform, None), Build, Trim(targets[i].build), Some(targets[i].platform), None)
  {
    seq(|targets|, i requires 0 <= i < |targets| =>
      PlanStep(BuildName(targets[i].platform, None), Build, Trim(targets[i].build), Some(targets[i].platform), None))
  }

  function Concat(lists: seq<seq<string>>): seq<string> {
    if lists == [] then [] else lists[0] + Concat(lists[1..])
  }

  function PatternLists(g: Generated): (lists: seq<seq<string>>)
    ensures |lists| == |g.targets|
    ensures forall i :: 0 <= i < |lists| ==>
      lists[i] == TrimAll(if g.artifacts.Some? then g.artifacts.value else DefaultArtifacts(g.targets[i].platform))
  {
    seq(|g.targets|, i requires 0 <= i < |g.targets| =>
      TrimAll(if g.artifacts.Some? then g.artifacts.value else DefaultArtifacts(g.targets[i].platform)))
  }

  function EnvOf(env: Pairs): (r: seq<EnvVar>)
    ensures |r| == |env|
    ensures forall i :: 0 <= i < |env| ==> r[i] == EnvVar(Trim(env[i].0), Trim(env[i].1))
  {
    seq(|env|, i requires 0 <= i < |env| => EnvVar(Trim(env[i].0), Trim(env[i].1)))
  }

  function PlatformsOf(g: Generated): seq<Platform> {
    seq(|g.targets|, i requires 0 <= i < |g.targets| => g.targets[i].platform)
  }

  function PlanFor(g: Generated): PipelinePlan {
    PipelinePlan(
      None, PlatformsOf(g), if g.flutter.Some? then Some(Trim(g.flutter.value)) else None,
      StepsIn(PreBuild, g.before) + BuildsOf(g.targets) + StepsIn(PostBuild, g.after),
      EnvOf(g.env), Unique(Concat(PatternLists(g))), g.offset,
      if NormalizeLabels(g.runsOn).Some? then NormalizeLabels(g.runsOn).value else [], g.isolation)
  }

  // ── When it plans ───────────────────────────────────────────────

  ghost predicate SecretSteps(steps: seq<Step>) {
    forall i :: 0 <= i < |steps| ==> SecretsOnly(steps[i].run)
  }

  ghost predicate DistinctSteps(steps: seq<Step>) {
    forall i, j :: 0 <= i < j < |steps| ==> Trim(steps[i].name) != Trim(steps[j].name)
  }

  /** Step names that no target build uses. */
  ghost predicate ClearOfBuilds(steps: seq<Step>, targets: seq<BuildTarget>) {
    forall i, j :: 0 <= i < |steps| && 0 <= j < |targets| ==> Trim(steps[i].name) != BuildName(targets[j].platform, None)
  }

  predicate GoodPattern(pattern: string) {
    !Contains(pattern, OPEN) && IsArtifactPattern(pattern)
  }

  ghost predicate GoodPatterns(patterns: seq<string>) {
    forall i :: 0 <= i < |patterns| ==> GoodPattern(patterns[i])
  }

  /** Every text is secret text, names are used once, and patterns are patterns. */
  ghost predicate Plannable(g: Generated) {
    && (forall i :: 0 <= i < |g.targets| ==> SecretsOnly(g.targets[i].build))
    && SecretSteps(g.before) && SecretSteps(g.after)
    && DistinctSteps(g.before + g.after) && ClearOfBuilds(g.before + g.after, g.targets)
    && (forall i :: 0 <= i < |g.env| ==> SecretsOnly(g.env[i].1))
    && (g.artifacts.Some? ==> GoodPatterns(g.artifacts.value))
  }

  lemma SecretResolves(text: string, flavor: Option<string>)
    requires SecretsOnly(text)
    ensures Resolution(Resolver.TableFor([]), flavor, text) == Some(text)
  {
    hide SecretsFrom, Expand;
    Resolver.SecretTextUnchanged(Resolver.TableFor([]), flavor, text);
    ResolutionIs(Resolver.TableFor([]), flavor, text, text);
  }

  lemma {:induction false} TopTargetsAre(g: Generated, k: nat)
    requires k <= |g.targets|
    ensures TopTargets(TargetEntries(g)[k..]) ==
      seq(|g.targets| - k, i requires 0 <= i < |g.targets| - k => Target(g.targets[k + i].platform, g.targets[k + i].build, g.artifacts))
    decreases |g.targets| - k
  {
    if k < |g.targets| {
      TopTargetsAre(g, k + 1);
      assert TargetEntries(g)[k..][1..] == TargetEntries(g)[k + 1..];
    }
  }

  ghost function TargetsFor(g: Generated): (r: seq<Target>)
    ensures |r| == |g.targets|
    ensures forall i :: 0 <= i < |r| ==> r[i] == Target(g.targets[i].platform, g.targets[i].build, g.artifacts)
  {
    seq(|g.targets|, i requires 0 <= i < |g.targets| => Target(g.targets[i].platform, g.targets[i].build, g.artifacts))
  }

  lemma TargetsAre(g: Generated)
    ensures TopTargets(TargetEntries(g)) == TargetsFor(g)
  {
    hide TopTargets;
    TopTargetsAre(g, 0);
    assert TargetEntries(g)[0..] == TargetEntries(g);
  }

  lemma OneBuild(vars: Table, target: Target, scopes: seq<Option<string>>)
    requires |scopes| == 1 && BuildStep(vars, target, scopes[0]).Some?
    ensures TargetBuilds(vars, target, scopes) == Some([BuildStep(vars, target, scopes[0]).value])
  {
    hide BuildStep;
    var step := BuildStep(vars, target, scopes[0]).value;
    assert TargetBuilds(vars, target, scopes[1..]) == Some([]);
    assert [step] + [] == [step];
  }

  lemma OnePattern(vars: Table, pattern: string, scopes: seq<Option<string>>)
    requires |scopes| == 1 && LowerPattern(vars, pattern, scopes[0]).Some?
    ensures LowerScoped(vars, pattern, scopes) == Some([LowerPattern(vars, pattern, scopes[0]).value])
  {
    hide LowerPattern;
    var lowered := LowerPattern(vars, pattern, scopes[0]).value;
    assert LowerScoped(vars, pattern, scopes[1..]) == Some([]);
    assert [lowered] + [] == [lowered];
  }

  lemma {:induction false} BuildsLower(targets: seq<Target>, builds: seq<BuildTarget>)
    requires |targets| == |builds|
    requires forall i :: 0 <= i < |builds| ==> targets[i].platform == builds[i].platform && targets[i].build == builds[i].build && SecretsOnly(builds[i].build)
    ensures AllBuilds(Resolver.TableFor([]), targets, [None]) == Some(BuildsOf(builds))
  {
    hide SecretsOnly, Resolution, BuildName, Trim, Resolver.TableFor;
    if targets != [] {
      BuildsLower(targets[1..], builds[1..]);
      SecretResolves(builds[0].build, None);
      var vars := Resolver.TableFor([]);
      OneBuild(vars, targets[0], [None]);
      assert BuildsOf(builds) == [BuildsOf(builds)[0]] + BuildsOf(builds[1..]);
    }
  }

  // ── Its steps ───────────────────────────────────────────────────

  lemma AddInline(before: Around, name: string, run: string)
    requires before.Around? && SecretsOnly(run) && Trim(name) !in before.names
    ensures
      var step := PlanStep(Trim(name), if before.placed then PostBuild else PreBuild, Trim(run), None, None);
      AddStep(Resolver.TableFor([]), before, name, run)
        == before.(steps := before.steps + [step], names := before.names + {Trim(name)})
  {
    hide SecretsOnly, Resolution, Trim;
    SecretResolves(run, None);
  }

  /** The names taken after the first `k` steps. */
  ghost function Taken(builds: seq<PlanStep>, steps: seq<Step>, k: nat): set<string>
    requires k <= |steps|
  {
    if k == 0 then NamesOfSteps(builds) else Taken(builds, steps, k - 1) + {Trim(steps[k - 1].name)}
  }

  lemma {:induction false} NotTaken(builds: seq<PlanStep>, steps: seq<Step>, k: nat, name: string)
    requires k <= |steps| && name !in NamesOfSteps(builds)
    requires forall i :: 0 <= i < k ==> Trim(steps[i].name) != name
    ensures name !in Taken(builds, steps, k)
  {
    hide NamesOfSteps, Trim;
    if k > 0 {
      NotTaken(builds, steps, k - 1, name);
    }
  }

  ghost function Lowered(before: seq<Step>, builds: seq<PlanStep>, after: seq<Step>, k: nat): Around
    requires k <= |before| + 1 + |after|
  {
    var steps := before + after;
    if k <= |before| then Around(StepsIn(PreBuild, before[..k]), Taken(builds, steps, k), false)
    else
      Around(StepsIn(PreBuild, before) + builds + StepsIn(PostBuild, after[..k - |before| - 1]),
             Taken(builds, steps, k - 1), true)
  }

  /** Step names are new: used once, and by no build. */
  ghost predicate NewNames(steps: seq<Step>, builds: seq<PlanStep>) {
    DistinctSteps(steps) && forall i :: 0 <= i < |steps| ==> Trim(steps[i].name) !in NamesOfSteps(builds)
  }

  lemma FreshName(builds: seq<PlanStep>, steps: seq<Step>, k: nat)
    requires k < |steps| && NewNames(steps, builds)
    ensures Trim(steps[k].name) !in Taken(builds, steps, k)
  {
    hide NamesOfSteps, Trim, Taken;
    NotTaken(builds, steps, k, Trim(steps[k].name));
  }

  lemma LowerBefore(before: seq<Step>, builds: seq<PlanStep>, after: seq<Step>, i: nat)
    requires i < |before| && SecretsOnly(before[i].run) && NewNames(before + after, builds)
    ensures AddStep(Resolver.TableFor([]), Lowered(before, builds, after, i), before[i].name, before[i].run) == Lowered(before, builds, after, i + 1)
  {
    hide SecretsOnly, Trim, NamesOfSteps, AddStep, NewNames;
    FreshName(builds, before + after, i);
    assert (before + after)[i] == before[i];
    AddInline(Lowered(before, builds, after, i), before[i].name, before[i].run);
    StepsInWith(PreBuild, before[..i], before[i]);
    assert before[..i + 1] == before[..i] + [before[i]];
  }

  lemma LowerAfter(before: seq<Step>, builds: seq<PlanStep>, after: seq<Step>, i: nat)
    requires i < |after| && SecretsOnly(after[i].run) && NewNames(before + after, builds)
    ensures AddStep(Resolver.TableFor([]), Lowered(before, builds, after, |before| + 1 + i), after[i].name, after[i].run)
      == Lowered(before, builds, after, |before| + 2 + i)
  {
    hide SecretsOnly, Trim, NamesOfSteps, AddStep, NewNames;
    FreshName(builds, before + after, |before| + i);
    assert (before + after)[|before| + i] == after[i];
    AddInline(Lowered(before, builds, after, |before| + 1 + i), after[i].name, after[i].run);
    StepsInWith(PostBuild, after[..i], after[i]);
    assert after[..i + 1] == after[..i] + [after[i]];
    var pre := StepsIn(PreBuild, before) + builds;
    var step := PlanStep(Trim(after[i].name), PostBuild, Trim(after[i].run), None, None);
    assert pre + StepsIn(PostBuild, after[..i]) + [step] == pre + (StepsIn(PostBuild, after[..i]) + [step]);
  }

  lemma LowerHere(before: seq<Step>, builds: seq<PlanStep>, after: seq<Step>)
    ensures
      var was := Lowered(before, builds, after, |before|);
      was.(steps := was.steps + builds, placed := true) == Lowered(before, builds, after, |before| + 1)
  {
    hide Trim, Taken;
    assert before[..|before|] == before;
    assert StepsIn(PostBuild, after[..0]) == [];
    assert StepsIn(PreBuild, before) + builds + [] == StepsIn(PreBuild, before) + builds;
  }

  lemma {:induction false} EntriesLower(before: seq<Step>, builds: seq<PlanStep>, after: seq<Step>, shared: seq<StepEntry>, k: nat)
    requires k <= |before| + 1 + |after|
    requires SecretSteps(before) && SecretSteps(after) && NewNames(before + after, builds)
    ensures LowerEntries(Resolver.TableFor([]), builds, shared, Entries(before) + [BuildHere] + Entries(after), k) == Lowered(before, builds, after, k)
    decreases k
  {
    hide SecretsOnly, Lowered, AddStep, NewNames, NamesOfSteps, Resolver.TableFor;
    if k == 0 {
      LoweredStart(before, builds, after);
    } else {
      EntriesLower(before, builds, after, shared, k - 1);
      LoweredPlaced(before, builds, after, k - 1);
      if k <= |before| {
        LowerBefore(before, builds, after, k - 1);
      } else if k == |before| + 1 {
        LowerHere(before, builds, after);
      } else {
        LowerAfter(before, builds, after, k - |before| - 2);
      }
    }
  }

  lemma LoweredStart(before: seq<Step>, builds: seq<PlanStep>, after: seq<Step>)
    ensures Lowered(before, builds, after, 0) == Around([], NamesOfSteps(builds), false)
  {
    hide NamesOfSteps, Trim;
    assert StepsIn(PreBuild, before[..0]) == [];
  }

  lemma LoweredPlaced(before: seq<Step>, builds: seq<PlanStep>, after: seq<Step>, k: nat)
    requires k <= |before| + 1 + |after|
    ensures Lowered(before, builds, after, k).Around? && (Lowered(before, builds, after, k).placed <==> k > |before|)
  {
  }

  lemma StepsInWith(phase: Phase, steps: seq<Step>, step: Step)
    ensures StepsIn(phase, steps + [step]) == StepsIn(phase, steps) + [PlanStep(Trim(step.name), phase, Trim(step.run), None, None)]
  {
    hide Trim;
  }

  lemma ClearNames(g: Generated)
    requires DistinctSteps(g.before + g.after) && ClearOfBuilds(g.before + g.after, g.targets)
    ensures NewNames(g.before + g.after, BuildsOf(g.targets))
  {
    hide Trim, BuildName, NamesOfSteps, DistinctSteps;
  }

  lemma NoStepsLower(builds: seq<PlanStep>, shared: seq<StepEntry>)
    ensures LowerSteps(Resolver.TableFor([]), builds, shared, []) == Some(builds)
  {
    assert [] + builds == builds;
  }

  lemma StepsLower(g: Generated, shared: seq<StepEntry>)
    requires Plannable(g)
    ensures LowerSteps(Resolver.TableFor([]), BuildsOf(g.targets), shared, EntriesOf(FileFor(g), NoWorkflow))
      == Some(StepsIn(PreBuild, g.before) + BuildsOf(g.targets) + StepsIn(PostBuild, g.after))
  {
    hide SecretsOnly, Trim, NamesOfSteps, Resolver.TableFor, DistinctSteps, GoodPatterns, Taken, ClearOfBuilds, NewNames, LowerEntries;
    var builds := BuildsOf(g.targets);
    if g.before == [] && g.after == [] {
      NoStepsLower(builds, shared);
      assert StepsIn(PreBuild, g.before) == [] && StepsIn(PostBuild, g.after) == [];
      assert [] + builds + [] == builds;
    } else {
      ClearNames(g);
      var n := |g.before| + 1 + |g.after|;
      EntriesLower(g.before, builds, g.after, shared, n);
      assert g.after[..n - |g.before| - 1] == g.after;
    }
  }

  // ── Its env and artifacts ───────────────────────────────────────

  lemma {:induction false} EnvLowers(env: Pairs)
    requires forall i :: 0 <= i < |env| ==> SecretsOnly(env[i].1)
    ensures LowerEnv(Resolver.TableFor([]), env) == Some(EnvOf(env))
  {
    hide SecretsOnly, Resolution, Trim, Resolver.TableFor;
    if env != [] {
      EnvLowers(env[1..]);
      SecretResolves(env[0].1, None);
      assert EnvOf(env) == [EnvOf(env)[0]] + EnvOf(env[1..]);
    }
  }

  lemma PatternLowers(pattern: string)
    requires GoodPattern(pattern)
    ensures LowerPattern(Resolver.TableFor([]), pattern, None) == Some(Trim(pattern))
  {
    hide Resolution, IsArtifactPattern;
    NoReference(pattern);
    SecretResolves(pattern, None);
    TrimmedPattern(pattern);
  }

  /** Trimming a pattern keeps it one. */
  lemma TrimmedPattern(pattern: string)
    requires GoodPattern(pattern)
    ensures !Contains(Trim(pattern), OPEN) && IsArtifactPattern(Trim(pattern))
  {
    hide IsPattern, FindFrom, Trim;
    TrimTrimmed(Trim(pattern));
    TrimTrimmed(pattern);
    TrimmedHasNoMore(pattern, OPEN);
  }

  lemma TrimmedHasNoMore(text: string, needle: string)
    requires !Contains(text, needle)
    ensures !Contains(Trim(text), needle)
  {
    hide FindFrom, Trim;
    var lead := TrimLead(text);
    var trimmed := Trim(text);
    forall k
      ensures !OccursAt(trimmed, needle, k)
    {
      if 0 <= k <= |trimmed| - |needle| {
        SliceOfSlice(text, lead, lead + |trimmed|, k, k + |needle|);
        assert !OccursAt(text, needle, lead + k);
      }
    }
  }

  lemma {:induction false} PatternsLower(patterns: seq<string>)
    requires GoodPatterns(patterns)
    ensures LowerPatterns(Resolver.TableFor([]), patterns, [None]) == Some(TrimAll(patterns))
  {
    hide GoodPattern, LowerPattern, Trim, Resolver.TableFor;
    if patterns != [] {
      PatternsLower(patterns[1..]);
      PatternLowers(patterns[0]);
      OnePattern(Resolver.TableFor([]), patterns[0], [None]);
      assert TrimAll(patterns) == [Trim(patterns[0])] + TrimAll(patterns[1..]);
    }
  }

  lemma {:induction false} AllPatternsLower(targets: seq<Target>, lists: seq<seq<string>>)
    requires |targets| == |lists|
    requires forall i :: 0 <= i < |targets| ==> GoodPatterns(PatternsOf(targets[i])) && lists[i] == TrimAll(PatternsOf(targets[i]))
    ensures AllPatterns(Resolver.TableFor([]), targets, [None]) == Some(Concat(lists))
  {
    hide GoodPatterns, PatternsOf, LowerPatterns, TrimAll, Resolver.TableFor;
    if targets != [] {
      AllPatternsLower(targets[1..], lists[1..]);
      PatternsLower(PatternsOf(targets[0]));
    }
  }

  // ── Default patterns ────────────────────────────────────────────

  predicate PlainChar(c: char) {
    'a' <= c <= 'z' || 'A' <= c <= 'Z' || '*' <= c <= '/'
  }

  lemma {:induction false} AsciiSize(s: string)
    ensures Size(s) <= 4 * |s|
  {
    hide EncodeChar;
    if s != [] {
      AsciiSize(s[1..]);
    }
  }

  lemma PlainIsNoSpace(c: char)
    requires PlainChar(c)
    ensures !IsSpace(c)
  {
  }

  lemma PlainHasNoReference(pattern: string)
    requires forall i :: 0 <= i < |pattern| ==> PlainChar(pattern[i])
    ensures !Contains(pattern, OPEN) && '\\' !in pattern && (pattern != [] ==> Trim(pattern) == pattern)
  {
    hide FindFrom, IsSpace, TrimStart, TrimEnd;
    forall i | 0 <= i < |pattern|
      ensures !IsSpace(pattern[i])
    {
      PlainIsNoSpace(pattern[i]);
    }
    forall k
      ensures !OccursAt(pattern, OPEN, k)
    {
      if 0 <= k <= |pattern| - 3 {
        assert pattern[k..k + 3][0] == pattern[k];
        assert OPEN[0] == '$';
      }
    }
    if pattern != [] {
      TrimTrimmed(pattern);
    }
  }

  predicate PlainSegment(segment: string) {
    && segment != [] && segment[0] != '.' && '/' !in segment
    && forall i :: 0 <= i < |segment| ==> PlainChar(segment[i])
  }

  lemma {:induction false} JoinedChars(segments: seq<string>)
    requires forall i :: 0 <= i < |segments| ==> PlainSegment(segments[i])
    ensures forall i :: 0 <= i < |Join(segments, "/")| ==> PlainChar(Join(segments, "/")[i])
    ensures segments != [] ==> segments[0] <= Join(segments, "/")
  {
    hide PlainChar;
    if |segments| > 1 {
      JoinedChars(segments[1..]);
      assert PlainSegment(segments[0]);
      assert PlainChar('/') by {
        SlashIsPlain();
      }
    }
  }

  lemma SlashIsPlain()
    ensures PlainChar('/')
  {
  }

  /** Segments joined by `/`, plain and short, the last with a wildcard. */
  predicate PlainSegments(segments: seq<string>) {
    && 0 < |segments| <= 8 && segments[|segments| - 1] != [] && segments[|segments| - 1][0] == '*'
    && forall i :: 0 <= i < |segments| ==> PlainSegment(segments[i]) && |segments[i]| <= 15
  }

  lemma {:induction false} JoinedEnd(segments: seq<string>)
    requires segments != [] && segments[|segments| - 1] != []
    requires forall i :: 0 <= i < |segments| ==> |segments[i]| <= 15
    ensures |Join(segments, "/")| <= 16 * |segments|
    ensures segments[|segments| - 1][0] in Join(segments, "/")
  {
    if |segments| > 1 {
      JoinedEnd(segments[1..]);
    }
  }

  lemma JoinedPattern(segments: seq<string>)
    requires PlainSegments(segments)
    ensures GoodPattern(Join(segments, "/")) && Trim(Join(segments, "/")) == Join(segments, "/")
  {
    hide Split, Join, FindFrom, Size, Trim, PlainChar;
    var pattern := Join(segments, "/");
    JoinedEnd(segments);
    JoinedChars(segments);
    PlainHasNoReference(pattern);
    SplitJoined(segments);
    AsciiSize(pattern);
    var last := segments[|segments| - 1];
    assert IsWildcard(last[0]);
    assert PlainSegment(segments[0]);
    assert pattern[0] == segments[0][0] != '/';
    forall i | 0 <= i < |segments|
      ensures segments[i] !in {"", ".", ".."}
    {
      assert PlainSegment(segments[i]);
    }
  }

  lemma {:induction false} SplitJoined(segments: seq<string>)
    requires segments != [] && forall i :: 0 <= i < |segments| ==> '/' !in segments[i]
    ensures Split(Join(segments, "/"), '/') == segments
  {
    hide Split;
    SplitNothing(segments[0], '/');
    if |segments| > 1 {
      SplitJoined(segments[1..]);
      SplitConcat(segments[0], Join(segments[1..], "/"), '/');
      assert segments == [segments[0]] + segments[1..];
    }
  }

  lemma ApkSegments()
    ensures PlainSegments(DefaultSegments(Android)[0])
  {
  }

  lemma AabSegments()
    ensures PlainSegments(DefaultSegments(Android)[1])
  {
  }

  lemma AppleSegments()
    ensures PlainSegments(DefaultSegments(Ios)[0]) && PlainSegments(DefaultSegments(Macos)[0])
  {
  }

  lemma DefaultSegmentsArePlain(platform: Platform)
    ensures forall i :: 0 <= i < |DefaultSegments(platform)| ==> PlainSegments(DefaultSegments(platform)[i])
  {
    hide PlainSegments;
    ApkSegments();
    AabSegments();
    AppleSegments();
  }

  lemma DefaultsAreGood(platform: Platform)
    ensures GoodPatterns(DefaultArtifacts(platform)) && TrimAll(DefaultArtifacts(platform)) == DefaultArtifacts(platform)
  {
    hide GoodPattern, Trim, DefaultSegments, DefaultArtifacts, PlainSegments, Join;
    DefaultSegmentsArePlain(platform);
    var patterns := DefaultArtifacts(platform);
    forall i | 0 <= i < |patterns|
      ensures GoodPattern(patterns[i]) && Trim(patterns[i]) == patterns[i]
    {
      JoinedPattern(DefaultSegments(platform)[i]);
    }
  }

  // ── The plan ────────────────────────────────────────────────────

  lemma PatternsAre(g: Generated)
    requires g.artifacts.Some? ==> GoodPatterns(g.artifacts.value)
    ensures AllPatterns(Resolver.TableFor([]), TargetsFor(g), [None]) == Some(Concat(PatternLists(g)))
  {
    hide GoodPattern, GoodPatterns, TrimAll, DefaultArtifacts, AllPatterns, Concat, Resolver.TableFor;
    forall i | 0 <= i < |g.targets|
      ensures GoodPatterns(PatternsOf(TargetsFor(g)[i])) && PatternLists(g)[i] == TrimAll(PatternsOf(TargetsFor(g)[i]))
    {
      DefaultsAreGood(g.targets[i].platform);
    }
    AllPatternsLower(TargetsFor(g), PatternLists(g));
  }

  /** A generated file plans to what it says, with nothing to substitute. */
  lemma GeneratedPlan(g: Generated)
    requires Plannable(g)
    ensures LowerConfig(FileFor(g), None, None) == Some(PlanFor(g))
  {
    hide Plannable, SecretsOnly, TopTargets, AllBuilds, LowerSteps, LowerEnv, AllPatterns, Resolver.TableFor, Unique, Concat, EntriesOf,
      NormalizeLabels, Trim;
    TargetsAre(g);
    var targets := TargetsFor(g);
    assert (forall i :: 0 <= i < |g.targets| ==> SecretsOnly(g.targets[i].build)) && (forall i :: 0 <= i < |g.env| ==> SecretsOnly(g.env[i].1))
      && (g.artifacts.Some? ==> GoodPatterns(g.artifacts.value)) by {
      PlannableParts(g);
    }
    BuildsLower(targets, g.targets);
    StepsLower(g, if FileFor(g).steps.Some? then FileFor(g).steps.value else []);
    EnvLowers(g.env);
    PatternsAre(g);
    assert PlatformsOf(g) == seq(|targets|, i requires 0 <= i < |targets| => targets[i].platform);
  }

  lemma PlannableParts(g: Generated)
    requires Plannable(g)
    ensures forall i :: 0 <= i < |g.targets| ==> SecretsOnly(g.targets[i].build)
    ensures forall i :: 0 <= i < |g.env| ==> SecretsOnly(g.env[i].1)
    ensures g.artifacts.Some? ==> GoodPatterns(g.artifacts.value)
  {
    hide SecretsOnly, GoodPatterns;
  }
}

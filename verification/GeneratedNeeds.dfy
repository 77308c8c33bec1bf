/** A generated file that plans has secret text only. */
module GeneratedNeeds {
  import opened Wrappers
  import opened Text
  import opened References
  import opened Expansion
  import opened SecretText
  import opened Plan
  import opened Lower
  import opened Labels
  import opened GeneratedFile
  import Resolver

  // ── Text that resolves without vars and flavors ─────────────────

  lemma {:induction false} SecretSpans(text: string, cursor: nat)
    requires cursor <= |text| && ParseFrom(text, cursor).Parsed?
    requires forall i :: 0 <= i < |ParseFrom(text, cursor).spans| ==> ParseFrom(text, cursor).spans[i].expression.Secret?
    ensures SecretsFrom(text, cursor).Secrets?
    decreases |text| - cursor
  {
    hide NextReference, Body, SecretName, VarName, FindFrom;
    var next := NextReference(text, cursor);
    if next.Found? {
      var spans, rest := ParseFrom(text, cursor).spans, ParseFrom(text, next.to + 2).spans;
      assert spans[0].expression.Secret?;
      forall i | 0 <= i < |rest|
        ensures rest[i].expression.Secret?
      {
        assert spans[i + 1] == rest[i];
      }
      SecretSpans(text, next.to + 2);
    }
  }

  lemma {:induction false} SegmentsVerbatim(segments: seq<Segment>, k: nat, n: nat)
    requires k <= |segments| && ExpandSegments(map[], None, segments, k, n).Some?
    ensures forall i :: 0 <= i < k ==> segments[i].piece.Verbatim?
    decreases k
  {
    if k > 0 {
      SegmentsVerbatim(segments, k - 1, n);
    }
  }

  lemma ExpandsOnlySecrets(text: string, n: nat)
    requires Expand(map[], None, text, n).Some?
    ensures SecretsOnly(text)
  {
    hide ParseFrom, SecretsFrom, ExpandSegments, GoodSpans;
    var parsed := Parse(text);
    ParseFromSpans(text, 0);
    var segments := TemplateFor(text, parsed.spans).segments;
    SegmentsVerbatim(segments, |segments|, n);
    forall i | 0 <= i < |parsed.spans|
      ensures parsed.spans[i].expression.Secret?
    {
      assert segments[i].piece.Verbatim?;
    }
    SecretSpans(text, 0);
  }

  lemma NoVars()
    ensures Resolver.TableFor([]) == map[]
  {
  }

  /** Without vars and flavors only secret text resolves, to itself. */
  lemma ResolvesOnlySecrets(text: string)
    ensures Resolution(Resolver.TableFor([]), None, text) == if SecretsOnly(text) then Some(text) else None
  {
    hide Expand, SecretsOnly, Resolver.TableFor;
    if SecretsOnly(text) {
      SecretResolves(text, None);
    } else if n: nat :| Expand(Resolver.TableFor([]), None, text, n).Some? {
      NoVars();
      ExpandsOnlySecrets(text, n);
    }
  }

  // ── Part by part ────────────────────────────────────────────────

  lemma {:induction false} BuildsNeed(targets: seq<Target>)
    requires AllBuilds(Resolver.TableFor([]), targets, [None]).Some?
    ensures forall i :: 0 <= i < |targets| ==> SecretsOnly(targets[i].build)
  {
    hide SecretsOnly, Resolution, Resolver.TableFor, BuildName, Trim;
    if targets != [] {
      ResolvesOnlySecrets(targets[0].build);
      BuildsNeed(targets[1..]);
    }
  }

  lemma {:induction false} EnvNeeds(env: Pairs)
    requires LowerEnv(Resolver.TableFor([]), env).Some?
    ensures forall i :: 0 <= i < |env| ==> SecretsOnly(env[i].1)
  {
    hide SecretsOnly, Resolution, Resolver.TableFor, Trim;
    if env != [] {
      ResolvesOnlySecrets(env[0].1);
      EnvNeeds(env[1..]);
    }
  }

  lemma {:induction false} EntriesNeed(builds: seq<PlanStep>, shared: seq<StepEntry>, entries: seq<StepEntry>, k: nat)
    requires k <= |entries| && LowerEntries(Resolver.TableFor([]), builds, shared, entries, k).Around?
    ensures forall i :: 0 <= i < k && entries[i].Inline? ==> SecretsOnly(entries[i].run)
    decreases k
  {
    hide SecretsOnly, Resolution, Resolver.TableFor, Trim, NamesOfSteps, FindInline;
    if k > 0 {
      EntriesNeed(builds, shared, entries, k - 1);
      if entries[k - 1].Inline? {
        ResolvesOnlySecrets(entries[k - 1].run);
      }
    }
  }

  lemma StepsNeed(g: Generated, entries: seq<StepEntry>)
    requires entries == Entries(g.before) + [BuildHere] + Entries(g.after)
    requires forall i :: 0 <= i < |entries| && entries[i].Inline? ==> SecretsOnly(entries[i].run)
    ensures SecretSteps(g.before) && SecretSteps(g.after)
  {
    hide SecretsOnly;
    forall i | 0 <= i < |g.before|
      ensures SecretsOnly(g.before[i].run)
    {
      assert entries[i].Inline?;
    }
    forall i | 0 <= i < |g.after|
      ensures SecretsOnly(g.after[i].run)
    {
      assert entries[|g.before| + 1 + i].Inline?;
    }
  }

  lemma PatternNeeds(pattern: string)
    requires LowerPattern(Resolver.TableFor([]), pattern, None).Some? && !Contains(pattern, OPEN)
    ensures GoodPattern(pattern)
  {
    hide Resolution, SecretsOnly, Resolver.TableFor, IsPattern, Trim, Contains;
    ResolvesOnlySecrets(pattern);
    TrimTwice(pattern);
  }

  lemma {:induction false} PatternsNeed(patterns: seq<string>)
    requires LowerPatterns(Resolver.TableFor([]), patterns, [None]).Some?
    requires forall i :: 0 <= i < |patterns| ==> !Contains(patterns[i], OPEN)
    ensures GoodPatterns(patterns)
  {
    hide LowerPattern, Resolver.TableFor, Contains, GoodPattern;
    if patterns != [] {
      PatternNeeds(patterns[0]);
      PatternsNeed(patterns[1..]);
    }
  }

  /** What planning a generated file demands of its texts. */
  lemma GeneratedNeedsSecrets(g: Generated)
    requires g.targets != [] && LowerConfig(FileFor(g), None, None).Some?
    requires DistinctSteps(g.before + g.after) && ClearOfBuilds(g.before + g.after, g.targets)
    requires g.artifacts.Some? ==> forall i :: 0 <= i < |g.artifacts.value| ==> !Contains(g.artifacts.value[i], OPEN)
    ensures Plannable(g)
  {
    hide SecretsOnly, AllBuilds, LowerEntries, LowerEnv, AllPatterns, LowerPatterns, Resolver.TableFor, Unique, TopTargets, NormalizeLabels,
      Trim, DistinctSteps, ClearOfBuilds, GoodPatterns, SecretSteps, Entries, TargetEntries, Contains;
    TargetsAre(g);
    var targets := TargetsFor(g);
    BuildsNeed(targets);
    forall i | 0 <= i < |g.targets|
      ensures SecretsOnly(g.targets[i].build)
    {
      assert SecretsOnly(targets[i].build);
    }
    EnvNeeds(g.env);
    var builds := AllBuilds(Resolver.TableFor([]), targets, [None]).value;
    var c := FileFor(g);
    if c.steps.Some? {
      EntriesNeed(builds, c.steps.value, c.steps.value, |c.steps.value|);
      StepsNeed(g, c.steps.value);
    } else {
      NoSecretSteps();
    }
    if g.artifacts.Some? {
      FirstPatterns(targets);
      PatternsNeed(g.artifacts.value);
    }
  }

  lemma FirstPatterns(targets: seq<Target>)
    requires targets != [] && AllPatterns(Resolver.TableFor([]), targets, [None]).Some?
    ensures LowerPatterns(Resolver.TableFor([]), PatternsOf(targets[0]), [None]).Some?
  {
    hide LowerPatterns, PatternsOf, Resolver.TableFor;
  }

  lemma NoSecretSteps()
    ensures SecretSteps([])
  {
  }
}

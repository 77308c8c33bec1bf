/** When a generated file is valid, and what it does. */
module GeneratedChecks {
  import opened Wrappers
  import opened Text
  import opened References
  import opened StepNames
  import opened SecretText
  import opened Plan
  import opened Labels
  import opened Triggers
  import opened Lower
  import opened FileChecks
  import opened GeneratedFile
  import opened UserSteps
  import opened NameFits
  import opened Convert
  import Resolver

  // ── Validity ────────────────────────────────────────────────────

  predicate RunsFit(steps: seq<Step>) {
    forall i :: 0 <= i < |steps| ==> Size(steps[i].run) <= MAX_COMMAND_BYTES && !IsBlank(steps[i].run)
  }

  predicate BuildsFit(targets: seq<BuildTarget>) {
    forall i :: 0 <= i < |targets| ==> Size(targets[i].build) <= MAX_COMMAND_BYTES && !IsBlank(targets[i].build)
  }

  predicate ListFits(artifacts: Option<seq<string>>) {
    artifacts.Some? ==>
      && 0 < |artifacts.value| <= MAX_ARTIFACT_PATTERNS
      && forall i :: 0 <= i < |artifacts.value| ==> Size(artifacts.value[i]) <= MAX_RAW_PATTERN_BYTES
  }

  predicate DistinctTargets(targets: seq<BuildTarget>) {
    forall i, j :: 0 <= i < j < |targets| ==> targets[i].platform != targets[j].platform
  }

  /** Sizes and shapes, part by part. */
  ghost predicate GeneratedFits(g: Generated) {
    && |g.env| <= MAX_ENV_ENTRIES && KeysOk(g.env)
    && (g.before + g.after != [] ==> |g.before| + 1 + |g.after| <= MAX_STEPS)
    && RunsFit(g.before + g.after) && NamesFit(g.before + g.after)
    && g.targets != [] && DistinctTargets(g.targets) && BuildsFit(g.targets)
    && ListFits(g.artifacts)
    && (g.flutter.Some? ==> !IsBlank(g.flutter.value))
    && (g.on.Some? ==> TriggersOk(g.on.value) && TriggersSizeOk(g.on.value))
    && OffsetOk(g.offset) && NormalizeLabels(g.runsOn).Some?
  }

  predicate EntriesFit(entries: seq<StepEntry>) {
    && |entries| <= MAX_STEPS && StepsOk(entries)
    && forall i :: 0 <= i < |entries| && entries[i].Inline? ==> Size(entries[i].run) <= MAX_COMMAND_BYTES
  }

  lemma EntriesAt(before: seq<Step>, after: seq<Step>, k: nat)
    requires k < |before| + 1 + |after|
    ensures
      var entries := Entries(before) + [BuildHere] + Entries(after);
      var steps := before + after;
      && |entries| == |steps| + 1
      && (k < |before| ==> entries[k] == Inline(steps[k].name, steps[k].run))
      && (k == |before| ==> entries[k] == BuildHere)
      && (k > |before| ==> entries[k] == Inline(steps[k - 1].name, steps[k - 1].run))
  {
  }

  ghost function At(before: nat, k: nat): nat {
    if k < before then k else k + 1
  }

  lemma EntriesFitForward(before: seq<Step>, after: seq<Step>, entries: seq<StepEntry>)
    requires entries == Entries(before) + [BuildHere] + Entries(after) && EntriesFit(entries)
    ensures |before| + 1 + |after| <= MAX_STEPS && RunsFit(before + after) && NamesFit(before + after)
  {
    hide StepNameFits, IsBlank, Size, Trim;
    var steps := before + after;
    forall i | 0 <= i < |steps|
      ensures StepNameFits(steps[i].name) && !IsBlank(steps[i].run) && Size(steps[i].run) <= MAX_COMMAND_BYTES
    {
      var k := At(|before|, i);
      EntriesAt(before, after, k);
      assert entries[k].Inline?;
    }
  }

  lemma EntriesFitBackward(before: seq<Step>, after: seq<Step>, entries: seq<StepEntry>)
    requires entries == Entries(before) + [BuildHere] + Entries(after)
    requires |before| + 1 + |after| <= MAX_STEPS && RunsFit(before + after) && NamesFit(before + after) && DistinctSteps(before + after)
    ensures EntriesFit(entries)
  {
    hide StepNameFits, IsBlank, Size, Trim, Entries;
    var steps := before + after;
    forall k | 0 <= k < |entries|
      ensures !entries[k].Ref? && (entries[k].BuildHere? <==> k == |before|)
      ensures entries[k].Inline? ==> StepNameFits(entries[k].name) && !IsBlank(entries[k].run) && Size(entries[k].run) <= MAX_COMMAND_BYTES
    {
      EntriesAt(before, after, k);
    }
    forall i, j | 0 <= i < j < |entries| && entries[i].Inline? && entries[j].Inline?
      ensures Trim(entries[i].name) != Trim(entries[j].name)
    {
      EntriesAt(before, after, i);
      EntriesAt(before, after, j);
    }
  }

  lemma EntriesFitIff(g: Generated)
    requires DistinctSteps(g.before + g.after)
    ensures
      (FileFor(g).steps.Some? ==> EntriesFit(FileFor(g).steps.value))
      <==> (g.before + g.after != [] ==> |g.before| + 1 + |g.after| <= MAX_STEPS) && RunsFit(g.before + g.after) && NamesFit(g.before + g.after)
  {
    hide RunsFit, NamesFit, EntriesFit, DistinctSteps, Entries, TargetEntries;
    var steps := g.before + g.after;
    if steps == [] {
      assert g.before == [] && g.after == [];
      NothingFits();
    } else {
      assert FileFor(g).steps.Some?;
      var entries := FileFor(g).steps.value;
      if EntriesFit(entries) {
        EntriesFitForward(g.before, g.after, entries);
      }
      if |g.before| + 1 + |g.after| <= MAX_STEPS && RunsFit(steps) && NamesFit(steps) {
        EntriesFitBackward(g.before, g.after, entries);
      }
    }
  }

  lemma NothingFits()
    ensures RunsFit([]) && NamesFit([])
  {
  }

  predicate TargetsFit(targets: seq<PlatformTarget>) {
    && targets != []
    && (forall i :: 0 <= i < |targets| ==> TargetOk(targets[i].spec) && TargetSizeOk(targets[i].spec))
    && (forall i, j :: 0 <= i < j < |targets| ==> targets[i].platform != targets[j].platform)
  }

  lemma TargetsFitIff(g: Generated)
    requires g.targets != []
    ensures TargetsFit(TargetEntries(g)) <==> DistinctTargets(g.targets) && BuildsFit(g.targets) && ListFits(g.artifacts)
  {
    hide Size, IsBlank;
    var targets := TargetEntries(g);
    if TargetsFit(targets) {
      assert TargetOk(targets[0].spec) && TargetSizeOk(targets[0].spec);
      forall i, j | 0 <= i < j < |targets|
        ensures g.targets[i].platform != g.targets[j].platform
      {
        assert targets[i].platform != targets[j].platform;
      }
      forall i | 0 <= i < |g.targets|
        ensures Size(g.targets[i].build) <= MAX_COMMAND_BYTES && !IsBlank(g.targets[i].build)
      {
        assert TargetOk(targets[i].spec) && TargetSizeOk(targets[i].spec);
      }
    }
  }

  lemma ChecksAre(c: Config)
    requires c.vars == [] && c.flavors == []
    ensures SizeOk(c) && ShapeOk(c) <==>
      && |c.env| <= MAX_ENV_ENTRIES && KeysOk(c.env) && TargetsFit(c.targets)
      && (c.steps.Some? ==> EntriesFit(c.steps.value))
      && (c.flutter.Some? ==> !IsBlank(c.flutter.value))
      && (c.on.Some? ==> TriggersOk(c.on.value) && TriggersSizeOk(c.on.value))
      && OffsetOk(c.offset) && NormalizeLabels(c.runsOn).Some?
  {
    hide TargetOk, TargetSizeOk, StepsOk, KeysOk, TriggersOk, TriggersSizeOk, OffsetOk, NormalizeLabels, IsBlank, Size;
    NoKeys();
  }

  lemma NoKeys()
    ensures KeysOk([])
  {
  }

  /** Parsing accepts a generated file exactly when its parts fit. */
  lemma GeneratedFileOk(g: Generated)
    requires Plannable(g) && g.targets != []
    ensures FileOk(FileFor(g)) <==> GeneratedFits(g)
  {
    hide Plannable, TargetsFit, EntriesFit, RunsFit, NamesFit, DistinctTargets, BuildsFit, ListFits, KeysOk, TriggersOk, TriggersSizeOk,
      OffsetOk, NormalizeLabels, LowerConfig, DistinctSteps, SizeOk, ShapeOk, IsBlank, TargetEntries, Entries;
    assert DistinctSteps(g.before + g.after) by {
      PlannableNames(g);
    }
    GeneratedPlan(g);
    ChecksAre(FileFor(g));
    TargetsFitIff(g);
    EntriesFitIff(g);
  }

  lemma PlannableNames(g: Generated)
    requires Plannable(g)
    ensures DistinctSteps(g.before + g.after)
  {
    hide DistinctSteps, SecretsOnly, ClearOfBuilds, GoodPatterns;
  }
}

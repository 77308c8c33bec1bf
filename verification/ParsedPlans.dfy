/** Plans of parsed files: what parsing guarantees makes every plan well shaped. */
module ParsedPlans {
  import opened Wrappers
  import opened Text
  import opened Expansion
  import opened Plan
  import opened Labels
  import opened Lower
  import opened FileChecks
  import opened PlanShape
  import Resolver

  ghost predicate DistinctKeys(targets: seq<PlatformTarget>) {
    forall i, j :: 0 <= i < j < |targets| ==> targets[i].platform != targets[j].platform
  }

  /** A mapping has each platform once, and a flavor list each flavor once. */
  ghost predicate WorkflowParsed(w: Workflow) {
    (w.targets.Some? ==> DistinctKeys(w.targets.value)) && (w.flavors.Some? ==> FlavorsOk(w.flavors.value))
  }

  ghost predicate Parsed(c: Config) {
    && DistinctKeys(c.targets) && FlavorsOk(c.flavors)
    && forall i :: 0 <= i < |c.workflows| ==> WorkflowParsed(c.workflows[i].1)
  }

  /** Of a file without workflows the shape checks say so. */
  lemma ValidIsParsed(c: Config)
    requires FileOk(c) && c.workflows == []
    ensures Parsed(c)
  {
    hide SizeOk, LowerConfig, Resolution, StepsOk, TargetOk, KeysOk, FlavorsOk, TriggersOk, NormalizeLabels;
  }

  lemma {:induction false} TopDistinct(targets: seq<PlatformTarget>)
    requires DistinctKeys(targets)
    ensures OnePerPlatform(TopTargets(targets))
    ensures forall i :: 0 <= i < |TopTargets(targets)| ==> exists k :: 0 <= k < |targets| && targets[k].platform == TopTargets(targets)[i].platform
  {
    if targets != [] {
      TopDistinct(targets[1..]);
      var rest, all := TopTargets(targets[1..]), TopTargets(targets);
      forall i | 0 <= i < |rest|
        ensures exists k :: 1 <= k < |targets| && targets[k].platform == rest[i].platform
      {
        var k :| 0 <= k < |targets[1..]| && targets[1..][k].platform == rest[i].platform;
        assert targets[k + 1].platform == rest[i].platform;
      }
    }
  }

  lemma {:induction false} OverridesKept(c: Config, overrides: seq<PlatformTarget>)
    requires DistinctKeys(overrides) && WorkflowTargets(c, overrides).Some?
    ensures |WorkflowTargets(c, overrides).value| == |overrides|
    ensures forall i :: 0 <= i < |overrides| ==> WorkflowTargets(c, overrides).value[i].platform == overrides[i].platform
  {
    hide BaseTarget;
    if overrides != [] {
      OverridesKept(c, overrides[1..]);
    }
  }

  lemma {:induction false} FoundIn(workflows: seq<(string, Workflow)>, name: string) returns (i: nat)
    requires FindWorkflow(workflows, name).Named?
    ensures i < |workflows| && FindWorkflow(workflows, name).workflow == workflows[i].1
  {
    if workflows[0].0 == name {
      i := 0;
    } else {
      var k := FoundIn(workflows[1..], name);
      i := k + 1;
    }
  }

  lemma SelectedIsParsed(c: Config, workflow: Option<string>)
    requires Parsed(c) && SelectWorkflow(c, workflow).Named?
    ensures WorkflowParsed(SelectWorkflow(c, workflow).workflow)
  {
    hide WorkflowParsed, FlavorsOk;
    if workflow.Some? {
      var i := FoundIn(c.workflows, workflow.value);
    }
  }

  lemma ParsedIsDistinct(c: Config, workflow: Option<string>)
    requires Parsed(c) && TargetsOf(c, SelectWorkflow(c, workflow)).Some?
    ensures ParsedTargets(c, SelectWorkflow(c, workflow))
  {
    hide IsIdentifier, SelectWorkflow;
    var w := SelectWorkflow(c, workflow);
    TopDistinct(c.targets);
    if w.Named? {
      SelectedIsParsed(c, workflow);
      if w.workflow.targets.Some? {
        OverridesKept(c, w.workflow.targets.value);
      }
    }
  }

  /** Every plan of a parsed file, for any workflow and any selection, is well shaped. */
  lemma ParsedPlanIsShaped(c: Config, workflow: Option<string>, selected: Option<seq<Platform>>)
    requires Parsed(c) && LowerConfig(c, workflow, selected).Some?
    ensures
      var w := SelectWorkflow(c, workflow);
      && TargetsOf(c, w).Some? && SelectTargets(TargetsOf(c, w).value, selected).Some?
      && WellShaped(LowerConfig(c, workflow, selected).value.steps, SelectTargets(TargetsOf(c, w).value, selected).value, Scopes(FlavorsOf(c, w)))
  {
    hide Parsed, LowerTargets, SelectWorkflow, TargetsOf, SelectTargets, WellShaped, Scopes, FlavorsOf, ParsedTargets;
    ParsedIsDistinct(c, workflow);
    PlanIsShaped(c, workflow, selected);
  }

  // ── No step is written in vain ──────────────────────────────────

  lemma {:induction false} PlacedWhen(vars: Table, builds: seq<PlanStep>, entries: seq<StepEntry>, k: nat)
    requires k <= |entries| && LowerEntries(vars, builds, entries, entries, k).Around?
    ensures LowerEntries(vars, builds, entries, entries, k).placed <==> exists j :: 0 <= j < k && entries[j].BuildHere?
    decreases k
  {
    hide Resolution, FindInline, NamesOfSteps, Trim;
    if k > 0 {
      PlacedWhen(vars, builds, entries, k - 1);
      if entries[k - 1].BuildHere? {
        assert 0 <= k - 1 < k && entries[k - 1].BuildHere?;
      }
    }
  }

  /** In the steps of a valid file every entry adds to the plan: its own step or, where
      `build` stands, the builds. */
  lemma EveryEntryCounts(vars: Table, builds: seq<PlanStep>, entries: seq<StepEntry>, k: nat)
    requires StepsOk(entries) && builds != [] && k < |entries|
    requires LowerEntries(vars, builds, entries, entries, k + 1).Around?
    ensures
      var before, now := LowerEntries(vars, builds, entries, entries, k), LowerEntries(vars, builds, entries, entries, k + 1);
      && before.Around?
      && (entries[k].BuildHere? ==> now.steps == before.steps + builds)
      && (entries[k].Inline? ==> |now.steps| == |before.steps| + 1 && before.steps <= now.steps)
      && |now.steps| > |before.steps|
  {
    hide Resolution, FindInline, NamesOfSteps, Trim, StepNameFits, IsBlank;
    PlacedWhen(vars, builds, entries, k);
  }

  // ── The stand-in flavor ─────────────────────────────────────────

  lemma ResolvesAlike(vars: Table, a: string, b: string, text: string)
    requires Resolution(vars, Some(a), text).Some?
    ensures Resolution(vars, Some(b), text).Some?
  {
    hide Expand;
    var n: nat :| Expand(vars, Some(a), text, n).Some?;
    AnyFlavor(vars, a, b, text, n);
  }

  /** Vars are tried out with a stand-in for the flavor: in a valid file every var resolves in
      every flavor, whatever flavors there are. */
  lemma VarsFitEveryFlavor(c: Config, i: nat, flavor: string)
    requires FileOk(c) && i < |c.vars|
    ensures Resolution(Resolver.TableFor(c.vars), Some(flavor), c.vars[i].1).Some?
  {
    hide SizeOk, ShapeOk, LowerConfig, Resolution, Resolver.TableFor;
    ResolvesAlike(Resolver.TableFor(c.vars), "flavor", flavor, c.vars[i].1);
  }
}

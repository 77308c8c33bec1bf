/** What every version 2 plan looks like, and what a platform selection changes. */
module PlanShape {
  import opened Wrappers
  import opened Text
  import opened References
  import opened Expansion
  import opened Plan
  import opened Labels
  import opened Lower
  import Resolver

  ghost predicate AllIn(steps: seq<PlanStep>, phase: Phase) {
    forall i :: 0 <= i < |steps| ==> steps[i].phase == phase
  }

  ghost predicate DistinctNames(steps: seq<PlanStep>) {
    forall i, j :: 0 <= i < j < |steps| ==> steps[i].name != steps[j].name
  }

  // ── Target builds ───────────────────────────────────────────────

  /** The platform and flavor of each build, targets first. */
  function Product(targets: seq<Target>, scopes: seq<Option<string>>): seq<(Platform, Option<string>)> {
    if targets == [] then []
    else seq(|scopes|, i requires 0 <= i < |scopes| => (targets[0].platform, scopes[i])) + Product(targets[1..], scopes)
  }

  ghost predicate Builds(steps: seq<PlanStep>, product: seq<(Platform, Option<string>)>) {
    && |steps| == |product|
    && forall i :: 0 <= i < |steps| ==>
         && steps[i].phase == Build && steps[i].platform == Some(product[i].0) && steps[i].flavor == product[i].1
         && steps[i].name == BuildName(product[i].0, product[i].1)
  }

  lemma {:induction false} TargetBuildsShape(vars: Table, target: Target, scopes: seq<Option<string>>)
    requires TargetBuilds(vars, target, scopes).Some?
    ensures Builds(TargetBuilds(vars, target, scopes).value, seq(|scopes|, i requires 0 <= i < |scopes| => (target.platform, scopes[i])))
  {
    hide Resolution, BuildName, Trim;
    if scopes != [] {
      TargetBuildsShape(vars, target, scopes[1..]);
      var rest := TargetBuilds(vars, target, scopes[1..]).value;
      var steps := TargetBuilds(vars, target, scopes).value;
      assert forall i :: 1 <= i < |steps| ==> steps[i] == rest[i - 1];
    }
  }

  lemma {:induction false} AllBuildsShape(vars: Table, targets: seq<Target>, scopes: seq<Option<string>>)
    requires AllBuilds(vars, targets, scopes).Some?
    ensures Builds(AllBuilds(vars, targets, scopes).value, Product(targets, scopes))
  {
    hide TargetBuilds, BuildName;
    if targets != [] {
      TargetBuildsShape(vars, targets[0], scopes);
      AllBuildsShape(vars, targets[1..], scopes);
    }
  }

  lemma BuildNamesDiffer(p: Platform, f: Option<string>, q: Platform, g: Option<string>)
    requires f.Some? == g.Some? && (p, f) != (q, g)
    ensures BuildName(p, f) != BuildName(q, g)
  {
    var a, b := BuildName(p, f), BuildName(q, g);
    assert a[6] == Title(p)[0] && b[6] == Title(q)[0];
    if p == q && f.Some? {
      var from := |"Build " + Title(p) + " ("|;
      assert a[from..|a| - 1] == f.value && b[from..|b| - 1] == g.value;
    }
  }

  lemma {:induction false} ProductMembers(targets: seq<Target>, scopes: seq<Option<string>>, k: nat)
    requires k < |Product(targets, scopes)|
    ensures exists i :: 0 <= i < |targets| && targets[i].platform == Product(targets, scopes)[k].0
    ensures Product(targets, scopes)[k].1 in scopes
  {
    if targets != [] {
      if k >= |scopes| {
        ProductMembers(targets[1..], scopes, k - |scopes|);
        var i :| 0 <= i < |targets[1..]| && targets[1..][i].platform == Product(targets[1..], scopes)[k - |scopes|].0;
        assert targets[i + 1].platform == Product(targets, scopes)[k].0;
      } else {
        assert targets[0].platform == Product(targets, scopes)[k].0;
      }
    }
  }

  /** Distinct platforms and flavors: each pair is built once. */
  lemma {:induction false} ProductDistinct(targets: seq<Target>, scopes: seq<Option<string>>)
    requires OnePerPlatform(targets) && Distinct(scopes)
    ensures Distinct(Product(targets, scopes))
  {
    if targets != [] {
      var rest := Product(targets[1..], scopes);
      ProductDistinct(targets[1..], scopes);
      forall k | 0 <= k < |rest|
        ensures rest[k].0 != targets[0].platform
      {
        ProductMembers(targets[1..], scopes, k);
        var i :| 0 <= i < |targets[1..]| && targets[1..][i].platform == rest[k].0;
        assert targets[i + 1].platform == rest[k].0;
      }
    }
  }

  lemma {:induction false} ProductPairs(targets: seq<Target>, scopes: seq<Option<string>>, i: nat, j: nat)
    requires i < |targets| && j < |scopes|
    ensures (targets[i].platform, scopes[j]) in Product(targets, scopes)
  {
    if i == 0 {
      assert Product(targets, scopes)[j] == (targets[0].platform, scopes[j]);
    } else {
      ProductPairs(targets[1..], scopes, i - 1, j);
    }
  }

  lemma BuildsDistinct(steps: seq<PlanStep>, targets: seq<Target>, scopes: seq<Option<string>>)
    requires Builds(steps, Product(targets, scopes)) && Distinct(Product(targets, scopes))
    requires forall i, j :: 0 <= i < |scopes| && 0 <= j < |scopes| ==> scopes[i].Some? == scopes[j].Some?
    ensures DistinctNames(steps)
  {
    hide BuildName;
    var product := Product(targets, scopes);
    forall i, j | 0 <= i < j < |steps|
      ensures steps[i].name != steps[j].name
    {
      ProductMembers(targets, scopes, i);
      ProductMembers(targets, scopes, j);
      BuildNamesDiffer(product[i].0, product[i].1, product[j].0, product[j].1);
    }
  }

  // ── Steps around the builds ─────────────────────────────────────

  /** What `LowerEntries` keeps: steps before, the builds once, steps after. */
  ghost predicate Framed(around: Around, builds: seq<PlanStep>, pre: seq<PlanStep>, post: seq<PlanStep>)
    requires around.Around?
  {
    && around.steps == (if around.placed then pre + builds + post else pre)
    && (!around.placed ==> post == [])
    && AllIn(pre, PreBuild) && AllIn(post, PostBuild)
    && around.names == NamesOfSteps(builds) + NamesOfSteps(pre) + NamesOfSteps(post)
    && DistinctNames(pre + post)
    && NamesOfSteps(builds) !! NamesOfSteps(pre + post)
  }

  lemma NamesConcat(a: seq<PlanStep>, b: seq<PlanStep>)
    ensures NamesOfSteps(a + b) == NamesOfSteps(a) + NamesOfSteps(b)
  {
    hide NamesOfSteps;
    forall name
      ensures name in NamesOfSteps(a + b) <==> name in NamesOfSteps(a) || name in NamesOfSteps(b)
    {
      if name in NamesOfSteps(a) {
        var i :| 0 <= i < |a| && a[i].name == name;
        assert (a + b)[i].name == name;
      }
      if name in NamesOfSteps(b) {
        var i :| 0 <= i < |b| && b[i].name == name;
        assert (a + b)[|a| + i].name == name;
      }
      if name in NamesOfSteps(a + b) {
        var i :| 0 <= i < |a + b| && (a + b)[i].name == name;
        if i < |a| {
          assert a[i].name == name;
        } else {
          assert b[i - |a|].name == name;
        }
      }
    }
  }

  lemma DistinctWith(steps: seq<PlanStep>, step: PlanStep)
    requires DistinctNames(steps) && step.name !in NamesOfSteps(steps)
    ensures DistinctNames(steps + [step])
  {
    hide NamesOfSteps;
  }

  lemma FramedStep(vars: Table, before: Around, name: string, run: string, builds: seq<PlanStep>, pre: seq<PlanStep>, post: seq<PlanStep>)
    returns (pre': seq<PlanStep>, post': seq<PlanStep>)
    requires before.Around? && Framed(before, builds, pre, post)
    requires AddStep(vars, before, name, run).Around?
    ensures Framed(AddStep(vars, before, name, run), builds, pre', post')
  {
    hide NamesOfSteps, Resolution, Trim, DistinctNames;
    var after := AddStep(vars, before, name, run);
    var step := after.steps[|before.steps|];
    NamesConcat(pre, post);
    NamesConcat(pre + post, [step]);
    assert NamesOfSteps([step]) == {step.name} by {
      OneName(step);
    }
    DistinctWith(pre + post, step);
    if before.placed {
      pre', post' := pre, post + [step];
      assert pre + post + [step] == pre' + post';
      assert pre + builds + post + [step] == pre' + builds + post';
      NamesConcat(post, [step]);
    } else {
      pre', post' := pre + [step], [];
      assert pre + post + [step] == pre' + post';
      NamesConcat(pre, [step]);
    }
  }

  lemma OneName(step: PlanStep)
    ensures NamesOfSteps([step]) == {step.name} && NamesOfSteps([]) == {}
  {
    assert [step][0].name == step.name;
  }

  lemma {:induction false} EntriesFramed(vars: Table, builds: seq<PlanStep>, shared: seq<StepEntry>, entries: seq<StepEntry>, k: nat)
    returns (pre: seq<PlanStep>, post: seq<PlanStep>)
    requires k <= |entries| && LowerEntries(vars, builds, shared, entries, k).Around?
    ensures Framed(LowerEntries(vars, builds, shared, entries, k), builds, pre, post)
    decreases k
  {
    hide NamesOfSteps, AddStep, DistinctNames, FindInline, AllIn;
    if k == 0 {
      pre, post := [], [];
      assert pre + post == [];
      NoSteps();
    } else {
      var before := LowerEntries(vars, builds, shared, entries, k - 1);
      pre, post := EntriesFramed(vars, builds, shared, entries, k - 1);
      var entry := entries[k - 1];
      if entry.Inline? {
        pre, post := FramedStep(vars, before, entry.name, entry.run, builds, pre, post);
      } else if entry.Ref? && FindInline(shared, entry.name).Some? && FindInline(shared, entry.name).value.Inline? {
        var step := FindInline(shared, entry.name).value;
        pre, post := FramedStep(vars, before, step.name, step.run, builds, pre, post);
      } else if entry.BuildHere? && !before.placed {
        assert pre + builds + [] == pre + builds;
      }
    }
  }

  lemma NoSteps()
    ensures AllIn([], PreBuild) && AllIn([], PostBuild) && DistinctNames([]) && NamesOfSteps([]) == {}
  {
  }

  // ── Every plan ──────────────────────────────────────────────────

  /** What parsing a file guarantees about its targets and flavors. */
  ghost predicate ParsedTargets(c: Config, w: Selected) {
    var targets := TargetsOf(c, w);
    && targets.Some?
    && OnePerPlatform(targets.value)
    && Distinct(FlavorsOf(c, w))
  }

  /** Steps before the builds, one build per platform and flavor, steps after them, and no
      name twice. */
  ghost predicate WellShaped(steps: seq<PlanStep>, targets: seq<Target>, scopes: seq<Option<string>>) {
    && DistinctNames(steps)
    && exists pre, builds, post ::
         && steps == pre + builds + post
         && AllIn(pre, PreBuild) && AllIn(post, PostBuild)
         && Builds(builds, Product(targets, scopes)) && Distinct(Product(targets, scopes))
  }

  lemma ScopesDistinct(flavors: seq<string>)
    requires Distinct(flavors)
    ensures Distinct(Scopes(flavors))
    ensures forall i, j :: 0 <= i < |Scopes(flavors)| && 0 <= j < |Scopes(flavors)| ==> Scopes(flavors)[i].Some? == Scopes(flavors)[j].Some?
  {
  }

  lemma AllDistinct(pre: seq<PlanStep>, builds: seq<PlanStep>, post: seq<PlanStep>)
    requires DistinctNames(pre + post) && DistinctNames(builds)
    requires NamesOfSteps(builds) !! NamesOfSteps(pre + post)
    ensures DistinctNames(pre + builds + post)
  {
    hide NamesOfSteps;
    var steps := pre + builds + post;
    forall i, j | 0 <= i < j < |steps|
      ensures steps[i].name != steps[j].name
    {
      Locate(pre, builds, post, i);
      Locate(pre, builds, post, j);
    }
  }

  /** A step of the whole is one of the builds, or one of the others in its place. */
  lemma Locate(pre: seq<PlanStep>, builds: seq<PlanStep>, post: seq<PlanStep>, i: nat)
    requires i < |pre + builds + post|
    ensures
      var step := (pre + builds + post)[i];
      if |pre| <= i < |pre| + |builds| then step == builds[i - |pre|] && step.name in NamesOfSteps(builds)
      else
        var k := if i < |pre| then i else i - |builds|;
        step == (pre + post)[k] && step.name in NamesOfSteps(pre + post)
  {
    hide NamesOfSteps;
  }

  lemma StepsShaped(vars: Table, builds: seq<PlanStep>, shared: seq<StepEntry>, entries: seq<StepEntry>, targets: seq<Target>, scopes: seq<Option<string>>)
    requires LowerSteps(vars, builds, shared, entries).Some?
    requires Builds(builds, Product(targets, scopes)) && Distinct(Product(targets, scopes)) && DistinctNames(builds)
    ensures WellShaped(LowerSteps(vars, builds, shared, entries).value, targets, scopes)
  {
    hide LowerEntries, DistinctNames, AllIn, Builds, Product, NamesOfSteps, Distinct;
    var around := LowerEntries(vars, builds, shared, entries, |entries|);
    var pre, post := EntriesFramed(vars, builds, shared, entries, |entries|);
    AllDistinct(pre, builds, post);
    assert pre + builds == pre + builds + [];
  }

  /** Every successful plan of a parsed file, for any workflow and any selection. */
  lemma PlanIsShaped(c: Config, workflow: Option<string>, selected: Option<seq<Platform>>)
    requires LowerConfig(c, workflow, selected).Some?
    requires ParsedTargets(c, SelectWorkflow(c, workflow))
    ensures
      var w := SelectWorkflow(c, workflow);
      var targets := SelectTargets(TargetsOf(c, w).value, selected).value;
      WellShaped(LowerConfig(c, workflow, selected).value.steps, targets, Scopes(FlavorsOf(c, w)))
  {
    hide LowerSteps, LowerEnv, AllPatterns, AllBuilds, DistinctNames, Product, Builds, NormalizeLabels, Unique, WellShaped, TargetsOf,
      SelectWorkflow, EntriesOf, OnePerPlatform, Distinct, Retained, Scopes, FlavorsOf, ValidSelection, Trim;
    var w := SelectWorkflow(c, workflow);
    var all := TargetsOf(c, w).value;
    var targets := SelectTargets(all, selected).value;
    var scopes := Scopes(FlavorsOf(c, w));
    var vars := Resolver.TableFor(if w.Named? then Overlay(c.vars, w.workflow.vars) else c.vars);
    if selected.Some? {
      RetainedDistinct(all, selected.value);
    }
    ScopesDistinct(FlavorsOf(c, w));
    ProductDistinct(targets, scopes);
    AllBuildsShape(vars, targets, scopes);
    var builds := AllBuilds(vars, targets, scopes).value;
    BuildsDistinct(builds, targets, scopes);
    StepsShaped(vars, builds, if c.steps.Some? then c.steps.value else [], EntriesOf(c, w), targets, scopes);
  }

  ghost predicate OnePerPlatform(targets: seq<Target>) {
    forall i, j :: 0 <= i < j < |targets| ==> targets[i].platform != targets[j].platform
  }

  lemma {:induction false} RetainedIn(targets: seq<Target>, selected: seq<Platform>, k: nat) returns (i: nat)
    requires k < |Retained(targets, selected)|
    ensures i < |targets| && targets[i] == Retained(targets, selected)[k] && targets[i].platform in selected
  {
    var rest := Retained(targets[1..], selected);
    if targets[0].platform in selected {
      if k == 0 {
        i := 0;
      } else {
        i := RetainedIn(targets[1..], selected, k - 1);
        i := i + 1;
      }
    } else {
      i := RetainedIn(targets[1..], selected, k);
      i := i + 1;
    }
  }

  lemma {:induction false} RetainedDistinct(targets: seq<Target>, selected: seq<Platform>)
    requires OnePerPlatform(targets)
    ensures OnePerPlatform(Retained(targets, selected))
  {
    if targets != [] {
      RetainedDistinct(targets[1..], selected);
      var rest := Retained(targets[1..], selected);
      forall k | 0 <= k < |rest|
        ensures rest[k].platform != targets[0].platform
      {
        var i := RetainedIn(targets[1..], selected, k);
        assert targets[i + 1] == rest[k];
      }
    }
  }

  // ── Selecting platforms ─────────────────────────────────────────

  predicate Keeps(step: PlanStep, selected: seq<Platform>) {
    step.platform.None? || step.platform.value in selected
  }

  /** The steps without the builds of unselected platforms. */
  function KeptSteps(steps: seq<PlanStep>, selected: seq<Platform>): seq<PlanStep> {
    if steps == [] then []
    else (if Keeps(steps[0], selected) then [steps[0]] else []) + KeptSteps(steps[1..], selected)
  }

  lemma {:induction false} KeptConcat(a: seq<PlanStep>, b: seq<PlanStep>, selected: seq<Platform>)
    ensures KeptSteps(a + b, selected) == KeptSteps(a, selected) + KeptSteps(b, selected)
  {
    hide Keeps;
    if a == [] {
      assert a + b == b;
    } else {
      KeptConcat(a[1..], b, selected);
      assert (a + b)[1..] == a[1..] + b && (a + b)[0] == a[0];
    }
  }

  lemma {:induction false} KeptAll(steps: seq<PlanStep>, selected: seq<Platform>)
    requires forall i :: 0 <= i < |steps| ==> Keeps(steps[i], selected)
    ensures KeptSteps(steps, selected) == steps
  {
    if steps != [] {
      KeptAll(steps[1..], selected);
      assert steps == [steps[0]] + steps[1..];
    }
  }

  lemma {:induction false} KeptNone(steps: seq<PlanStep>, selected: seq<Platform>)
    requires forall i :: 0 <= i < |steps| ==> !Keeps(steps[i], selected)
    ensures KeptSteps(steps, selected) == []
  {
    if steps != [] {
      KeptNone(steps[1..], selected);
    }
  }

  lemma {:induction false} SelectedBuilds(vars: Table, targets: seq<Target>, scopes: seq<Option<string>>, selected: seq<Platform>)
    requires AllBuilds(vars, targets, scopes).Some?
    ensures AllBuilds(vars, Retained(targets, selected), scopes) == Some(KeptSteps(AllBuilds(vars, targets, scopes).value, selected))
  {
    hide TargetBuilds, Builds, BuildName;
    if targets != [] {
      SelectedBuilds(vars, targets[1..], scopes, selected);
      var first, rest := TargetBuilds(vars, targets[0], scopes).value, AllBuilds(vars, targets[1..], scopes).value;
      KeptConcat(first, rest, selected);
      TargetBuildsShape(vars, targets[0], scopes);
      BuildsOfOne(first, targets[0].platform, scopes);
      var kept := Retained(targets[1..], selected);
      if targets[0].platform in selected {
        KeptAll(first, selected);
        assert Retained(targets, selected)[1..] == kept;
      } else {
        KeptNone(first, selected);
        assert Retained(targets, selected) == kept;
        assert [] + KeptSteps(rest, selected) == KeptSteps(rest, selected);
      }
    }
  }

  lemma BuildsOfOne(steps: seq<PlanStep>, platform: Platform, scopes: seq<Option<string>>)
    requires Builds(steps, seq(|scopes|, i requires 0 <= i < |scopes| => (platform, scopes[i])))
    ensures forall i :: 0 <= i < |steps| ==> steps[i].platform == Some(platform)
  {
    hide BuildName;
  }

  lemma {:induction false} SelectedPatterns(vars: Table, targets: seq<Target>, scopes: seq<Option<string>>, selected: seq<Platform>)
    requires AllPatterns(vars, targets, scopes).Some?
    ensures AllPatterns(vars, Retained(targets, selected), scopes).Some?
  {
    hide LowerPatterns, PatternsOf;
    if targets != [] {
      SelectedPatterns(vars, targets[1..], scopes, selected);
      var kept := Retained(targets[1..], selected);
      if targets[0].platform in selected {
        assert ([targets[0]] + kept)[1..] == kept;
      } else {
        assert [] + kept == kept;
      }
    }
  }

  /** Fewer builds take fewer names, so the steps around them stay as they were. */
  ghost predicate SameAround(full: Around, part: Around, selected: seq<Platform>) {
    && full.Around? && part.Around?
    && part.steps == KeptSteps(full.steps, selected)
    && part.names <= full.names && part.placed == full.placed
  }

  lemma SameStep(vars: Table, full: Around, part: Around, name: string, run: string, selected: seq<Platform>)
    requires SameAround(full, part, selected) && AddStep(vars, full, name, run).Around?
    ensures SameAround(AddStep(vars, full, name, run), AddStep(vars, part, name, run), selected)
  {
    hide Resolution, Trim;
    var after := AddStep(vars, full, name, run);
    var step := after.steps[|full.steps|];
    KeptConcat(full.steps, [step], selected);
    KeptAll([step], selected);
  }

  lemma {:induction false} SelectedEntries(vars: Table, builds: seq<PlanStep>, shared: seq<StepEntry>,
                                           entries: seq<StepEntry>, k: nat, selected: seq<Platform>)
    requires k <= |entries| && LowerEntries(vars, builds, shared, entries, k).Around?
    ensures SameAround(
      LowerEntries(vars, builds, shared, entries, k),
      LowerEntries(vars, KeptSteps(builds, selected), shared, entries, k), selected)
    decreases k
  {
    hide AddStep, FindInline, NamesOfSteps, KeptSteps;
    if k == 0 {
      KeptAll([], selected);
      KeptNames(builds, selected);
    } else {
      SelectedEntries(vars, builds, shared, entries, k - 1, selected);
      var full := LowerEntries(vars, builds, shared, entries, k - 1);
      var part := LowerEntries(vars, KeptSteps(builds, selected), shared, entries, k - 1);
      var entry := entries[k - 1];
      if entry.Inline? {
        SameStep(vars, full, part, entry.name, entry.run, selected);
      } else if entry.Ref? && FindInline(shared, entry.name).Some? && FindInline(shared, entry.name).value.Inline? {
        var step := FindInline(shared, entry.name).value;
        SameStep(vars, full, part, step.name, step.run, selected);
      } else if entry.BuildHere? && !full.placed {
        KeptConcat(full.steps, builds, selected);
      }
    }
  }

  lemma {:induction false} KeptNames(steps: seq<PlanStep>, selected: seq<Platform>)
    ensures NamesOfSteps(KeptSteps(steps, selected)) <= NamesOfSteps(steps)
  {
    if steps != [] {
      KeptNames(steps[1..], selected);
      var kept := KeptSteps(steps[1..], selected);
      NamesConcat([steps[0]], steps[1..]);
      NamesConcat([steps[0]], kept);
      assert steps == [steps[0]] + steps[1..];
      assert [] + kept == kept;
    }
  }

  lemma SelectedSteps(vars: Table, builds: seq<PlanStep>, shared: seq<StepEntry>, entries: seq<StepEntry>, selected: seq<Platform>)
    requires LowerSteps(vars, builds, shared, entries).Some?
    ensures LowerSteps(vars, KeptSteps(builds, selected), shared, entries)
      == Some(KeptSteps(LowerSteps(vars, builds, shared, entries).value, selected))
  {
    hide LowerEntries, KeptSteps;
    SelectedEntries(vars, builds, shared, entries, |entries|, selected);
    KeptConcat(LowerEntries(vars, builds, shared, entries, |entries|).steps, builds, selected);
  }

  /** The plan of part of the targets, against the plan of all. */
  ghost predicate Filtered(full: PipelinePlan, part: PipelinePlan, selected: seq<Platform>) {
    && part.steps == KeptSteps(full.steps, selected)
    && part == full.(steps := part.steps, platforms := part.platforms, artifacts := part.artifacts)
    && forall i :: 0 <= i < |part.platforms| ==> part.platforms[i] in selected
  }

  lemma SelectedTargets(c: Config, w: Selected, targets: seq<Target>, selected: seq<Platform>)
    requires LowerTargets(c, w, targets).Some?
    ensures LowerTargets(c, w, Retained(targets, selected)).Some?
    ensures Filtered(LowerTargets(c, w, targets).value, LowerTargets(c, w, Retained(targets, selected)).value, selected)
  {
    hide LowerSteps, LowerEnv, AllPatterns, AllBuilds, NormalizeLabels, Unique, EntriesOf, KeptSteps, Retained, Scopes, FlavorsOf, Trim,
      Overlay;
    var vars := Resolver.TableFor(if w.Named? then Overlay(c.vars, w.workflow.vars) else c.vars);
    var scopes := Scopes(FlavorsOf(c, w));
    SelectedBuilds(vars, targets, scopes, selected);
    SelectedPatterns(vars, targets, scopes, selected);
    SelectedSteps(vars, AllBuilds(vars, targets, scopes).value, if c.steps.Some? then c.steps.value else [], EntriesOf(c, w), selected);
    forall i | 0 <= i < |Retained(targets, selected)|
      ensures Retained(targets, selected)[i].platform in selected
    {
      var k := RetainedIn(targets, selected, i);
    }
  }

  /** Planning a valid selection succeeds whenever the full plan does, and only drops the
      builds of the platforms left out. */
  lemma SelectionFiltersBuilds(c: Config, workflow: Option<string>, selected: seq<Platform>)
    requires LowerConfig(c, workflow, None).Some?
    requires ValidSelection(TargetsOf(c, SelectWorkflow(c, workflow)).value, selected)
    ensures LowerConfig(c, workflow, Some(selected)).Some?
    ensures Filtered(LowerConfig(c, workflow, None).value, LowerConfig(c, workflow, Some(selected)).value, selected)
  {
    hide LowerTargets, TargetsOf, SelectWorkflow, ValidSelection, Filtered, Retained;
    var w := SelectWorkflow(c, workflow);
    SelectedTargets(c, w, TargetsOf(c, w).value, selected);
  }
}

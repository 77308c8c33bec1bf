/** What a workflow changes in a plan: its own vars, env, targets, flavors and steps win. */
module WorkflowPlans {
  import opened Wrappers
  import opened Text
  import opened References
  import opened Expansion
  import opened Plan
  import opened Labels
  import opened Lower
  import opened ImportPlan
  import opened LowerFile
  import Resolver

  // ── Selecting ───────────────────────────────────────────────────

  ghost predicate DistinctWorkflows(workflows: seq<(string, Workflow)>) {
    forall i, j :: 0 <= i < j < |workflows| ==> workflows[i].0 != workflows[j].0
  }

  lemma {:induction false} FindsNamed(workflows: seq<(string, Workflow)>, i: nat)
    requires DistinctWorkflows(workflows) && i < |workflows|
    ensures FindWorkflow(workflows, workflows[i].0) == Named(workflows[i].0, workflows[i].1)
  {
    if i > 0 {
      FindsNamed(workflows[1..], i - 1);
    }
  }

  lemma {:induction false} FindsNothing(workflows: seq<(string, Workflow)>, name: string)
    requires forall i :: 0 <= i < |workflows| ==> workflows[i].0 != name
    ensures FindWorkflow(workflows, name).Unknown?
  {
    if workflows != [] {
      FindsNothing(workflows[1..], name);
    }
  }

  /** By name, exactly the workflow of that name; without one, the only workflow or, in a
      file without workflows, the top level. */
  lemma SelectsNamed(c: Config, name: string)
    requires DistinctWorkflows(c.workflows)
    ensures forall i :: 0 <= i < |c.workflows| && c.workflows[i].0 == name ==> SelectWorkflow(c, Some(name)) == Named(name, c.workflows[i].1)
    ensures SelectWorkflow(c, Some(name)).Unknown? <==> forall i :: 0 <= i < |c.workflows| ==> c.workflows[i].0 != name
    ensures SelectWorkflow(c, None).Unknown? <==> |c.workflows| > 1
    ensures |c.workflows| == 1 ==> SelectWorkflow(c, None) == SelectWorkflow(c, Some(c.workflows[0].0))
    ensures SelectWorkflow(c, None).NoWorkflow? <==> c.workflows == []
  {
    hide FindWorkflow;
    if |c.workflows| == 1 {
      FindsNamed(c.workflows, 0);
    }
    forall i | 0 <= i < |c.workflows| && c.workflows[i].0 == name
      ensures FindWorkflow(c.workflows, name) == Named(name, c.workflows[i].1)
    {
      FindsNamed(c.workflows, i);
    }
    if forall i :: 0 <= i < |c.workflows| ==> c.workflows[i].0 != name {
      FindsNothing(c.workflows, name);
    }
  }

  // ── Replacing by name ───────────────────────────────────────────

  predicate HasKey(pairs: Pairs, name: string) {
    exists i :: 0 <= i < |pairs| && pairs[i].0 == name
  }

  /** A name keeps its place with its new value; a new name goes last. */
  lemma {:induction false} PutIs(pairs: Pairs, name: string, value: string)
    requires DistinctKeys(pairs)
    ensures
      var r := Put(pairs, name, value);
      && |r| == |pairs| + (if HasKey(pairs, name) then 0 else 1)
      && (forall i :: 0 <= i < |pairs| ==> r[i] == if pairs[i].0 == name then (name, value) else pairs[i])
      && (!HasKey(pairs, name) ==> r[|pairs|] == (name, value))
  {
    if pairs != [] {
      var rest := pairs[1..];
      PutIs(rest, name, value);
      assert forall i :: 0 <= i < |rest| ==> rest[i] == pairs[i + 1];
      if pairs[0].0 == name {
        assert HasKey(pairs, name);
        assert forall i :: 1 <= i < |pairs| ==> pairs[i].0 != name;
      } else {
        assert HasKey(pairs, name) <==> HasKey(rest, name) by {
          if HasKey(pairs, name) {
            var i :| 0 <= i < |pairs| && pairs[i].0 == name;
            assert rest[i - 1].0 == name;
          }
        }
        var r := Put(pairs, name, value);
        assert forall i :: 1 <= i < |r| ==> r[i] == Put(rest, name, value)[i - 1];
      }
    }
  }

  lemma InTable(pairs: Pairs, name: string)
    requires DistinctKeys(pairs)
    ensures name in Resolver.TableFor(pairs) <==> HasKey(pairs, name)
    ensures forall i :: 0 <= i < |pairs| && pairs[i].0 == name ==> name in Resolver.TableFor(pairs) && Resolver.TableFor(pairs)[name] == pairs[i].1
  {
    hide Resolver.TableFor, DistinctKeys;
    Resolver.TableAt(pairs, name);
    forall i | 0 <= i < |pairs| && pairs[i].0 == name
      ensures name in Resolver.TableFor(pairs) && Resolver.TableFor(pairs)[name] == pairs[i].1
    {
      TableHolds(pairs, i);
    }
    var index := Resolver.IndexOf(pairs, |pairs|);
    if name in index {
      assert pairs[index[name]].0 == name;
    }
  }

  lemma PutTable(pairs: Pairs, name: string, value: string)
    requires DistinctKeys(pairs)
    ensures Resolver.TableFor(Put(pairs, name, value)) == Resolver.TableFor(pairs)[name := value]
  {
    hide Resolver.TableFor, Put;
    var r := Put(pairs, name, value);
    PutIs(pairs, name, value);
    PutKeys(pairs, name, value);
    forall key
      ensures key in Resolver.TableFor(r) <==> key == name || key in Resolver.TableFor(pairs)
      ensures key in Resolver.TableFor(r) ==> Resolver.TableFor(r)[key] == if key == name then value else Resolver.TableFor(pairs)[key]
    {
      PutAt(pairs, name, value, key);
    }
    assert Resolver.TableFor(r).Keys == Resolver.TableFor(pairs)[name := value].Keys;
  }

  lemma PutAt(pairs: Pairs, name: string, value: string, key: string)
    requires DistinctKeys(pairs)
    ensures
      var r := Resolver.TableFor(Put(pairs, name, value));
      && (key in r <==> key == name || key in Resolver.TableFor(pairs))
      && (key in r ==> r[key] == if key == name then value else Resolver.TableFor(pairs)[key])
  {
    hide Resolver.TableFor, Put;
    var r := Put(pairs, name, value);
    PutIs(pairs, name, value);
    PutKeys(pairs, name, value);
    InTable(pairs, key);
    InTable(r, key);
    if HasKey(pairs, key) {
      var i :| 0 <= i < |pairs| && pairs[i].0 == key;
      assert r[i].0 == key;
    } else if key == name {
      assert r[|pairs|] == (name, value);
    } else {
      forall i | 0 <= i < |r|
        ensures r[i].0 != key
      {
        if i < |pairs| {
          assert pairs[i].0 != key;
        }
      }
    }
  }

  lemma IndexStep(pairs: Pairs, k: nat)
    requires k < |pairs|
    ensures Resolver.IndexOf(pairs, k + 1) == Resolver.IndexOf(pairs, k)[pairs[k].0 := k] && Resolver.IndexOf(pairs, 0) == map[]
  {
  }

  lemma {:induction false} IndexOfInit(over: Pairs, init: Pairs, k: nat)
    requires init <= over && k <= |init|
    ensures Resolver.IndexOf(init, k) == Resolver.IndexOf(over, k)
  {
    hide Resolver.IndexOf;
    if k > 0 {
      IndexOfInit(over, init, k - 1);
      IndexStep(init, k - 1);
      IndexStep(over, k - 1);
    } else if init != [] {
      IndexStep(init, 0);
      IndexStep(over, 0);
    } else {
      NoIndex(init);
      NoIndex(over);
    }
  }

  lemma NoIndex(pairs: Pairs)
    ensures Resolver.IndexOf(pairs, 0) == map[]
  {
  }

  lemma TableValue(over: Pairs, init: Pairs, last: (string, string), name: string)
    requires over == init + [last]
    ensures name in Resolver.TableFor(over) <==> name == last.0 || name in Resolver.TableFor(init)
    ensures name in Resolver.TableFor(over) ==> Resolver.TableFor(over)[name] == if name == last.0 then last.1 else Resolver.TableFor(init)[name]
  {
    hide Resolver.TableFor, Resolver.IndexOf;
    var n := |init|;
    IndexOfInit(over, init, n);
    IndexStep(over, n);
    Resolver.TableAt(over, name);
    Resolver.TableAt(init, name);
  }

  /** A later pair for a name replaces an earlier one. */
  lemma TableWith(over: Pairs)
    requires over != []
    ensures Resolver.TableFor(over) == Resolver.TableFor(over[..|over| - 1])[over[|over| - 1].0 := over[|over| - 1].1]
  {
    hide Resolver.TableFor;
    var init, last := over[..|over| - 1], over[|over| - 1];
    assert over == init + [last];
    forall name
      ensures name in Resolver.TableFor(over) <==> name == last.0 || name in Resolver.TableFor(init)
      ensures name in Resolver.TableFor(over) ==> Resolver.TableFor(over)[name] == if name == last.0 then last.1 else Resolver.TableFor(init)[name]
    {
      TableValue(over, init, last, name);
    }
    assert Resolver.TableFor(over).Keys == Resolver.TableFor(init)[last.0 := last.1].Keys;
  }

  /** A workflow's pairs replace the top-level ones by name, and add to them. */
  lemma {:induction false} OverlayTable(base: Pairs, over: Pairs)
    requires DistinctKeys(base)
    ensures Resolver.TableFor(Overlay(base, over)) == Resolver.TableFor(base) + Resolver.TableFor(over)
    decreases |over|
  {
    hide Resolver.TableFor, DistinctKeys, Put;
    if over == [] {
      NothingOver();
      assert Resolver.TableFor(base) + map[] == Resolver.TableFor(base);
    } else {
      var init, last := over[..|over| - 1], over[|over| - 1];
      OverlayTable(base, init);
      OverlayKeys(base, init);
      PutTable(Overlay(base, init), last.0, last.1);
      TableWith(over);
    }
  }

  lemma NothingOver()
    ensures Resolver.TableFor([]) == map[]
  {
  }

  /** Top-level names keep their places; new ones follow. */
  lemma {:induction false} OverlayPlaces(base: Pairs, over: Pairs)
    requires DistinctKeys(base)
    ensures |base| <= |Overlay(base, over)| && forall i :: 0 <= i < |base| ==> Overlay(base, over)[i].0 == base[i].0
    decreases |over|
  {
    hide Put, DistinctKeys;
    if over != [] {
      var init, last := over[..|over| - 1], over[|over| - 1];
      OverlayPlaces(base, init);
      OverlayKeys(base, init);
      PutIs(Overlay(base, init), last.0, last.1);
    }
  }

  // ── Env ─────────────────────────────────────────────────────────

  lemma {:induction false} EnvIs(vars: Table, env: Pairs)
    requires LowerEnv(vars, env).Some?
    ensures
      var r := LowerEnv(vars, env).value;
      |r| == |env| && forall i :: 0 <= i < |env| ==>
        Resolution(vars, None, env[i].1).Some? && r[i] == EnvVar(Trim(env[i].0), Trim(Resolution(vars, None, env[i].1).value))
  {
    hide Resolution, Trim;
    if env != [] {
      EnvIs(vars, env[1..]);
    }
  }

  ghost predicate EnvHas(plan: PipelinePlan, vars: Table, name: string, text: string) {
    exists k :: 0 <= k < |plan.env| && plan.env[k].key == Trim(name)
                && Resolution(vars, None, text).Some? && plan.env[k].value == Trim(Resolution(vars, None, text).value)
  }

  lemma PairInPlan(vars: Table, env: Pairs, name: string, plan: PipelinePlan)
    requires LowerEnv(vars, env) == Some(plan.env) && DistinctKeys(env) && name in Resolver.TableFor(env)
    ensures EnvHas(plan, vars, name, Resolver.TableFor(env)[name])
  {
    hide Resolver.TableFor, LowerEnv, Resolution, Trim, DistinctKeys;
    InTable(env, name);
    EnvIs(vars, env);
    var i :| 0 <= i < |env| && env[i].0 == name;
    assert plan.env[i].key == Trim(name);
  }

  /** The parts of a plan, by the functions that make them. */
  lemma PlanParts(c: Config, workflow: Option<string>, selected: Option<seq<Platform>>)
    requires LowerConfig(c, workflow, selected).Some?
    ensures
      var w, plan := SelectWorkflow(c, workflow), LowerConfig(c, workflow, selected).value;
      var vars := Resolver.TableFor(VarsOf(c, w));
      && !w.Unknown? && TargetsOf(c, w).Some? && SelectTargets(TargetsOf(c, w).value, selected).Some?
      && var targets := SelectTargets(TargetsOf(c, w).value, selected).value;
         var builds := AllBuilds(vars, targets, Scopes(FlavorsOf(c, w)));
         && LowerEnv(vars, EnvIn(c, w)) == Some(plan.env)
         && builds.Some?
         && LowerSteps(vars, builds.value, if c.steps.Some? then c.steps.value else [], EntriesOf(c, w)) == Some(plan.steps)
  {
    hide SelectWorkflow, TargetsOf, SelectTargets, AllBuilds, LowerSteps, LowerEnv, AllPatterns, Resolver.TableFor, Overlay, EntriesOf, FlavorsOf, Scopes,
      Unique, NormalizeLabels, Trim;
  }

  /** In the plan of a workflow each of its env names has the workflow's own value, every
      other name the top-level value, and vars resolve as the workflow sets them. */
  lemma WorkflowEnvWins(c: Config, workflow: Option<string>, selected: Option<seq<Platform>>, name: string)
    requires LowerConfig(c, workflow, selected).Some? && SelectWorkflow(c, workflow).Named?
    requires DistinctKeys(c.env) && DistinctKeys(c.vars)
    ensures
      var own, plan := SelectWorkflow(c, workflow).workflow, LowerConfig(c, workflow, selected).value;
      var vars := Resolver.TableFor(c.vars) + Resolver.TableFor(own.vars);
      && (name in Resolver.TableFor(own.env) ==> EnvHas(plan, vars, name, Resolver.TableFor(own.env)[name]))
      && (name in Resolver.TableFor(c.env) && name !in Resolver.TableFor(own.env) ==> EnvHas(plan, vars, name, Resolver.TableFor(c.env)[name]))
  {
    hide LowerConfig, SelectWorkflow, TargetsOf, SelectTargets, AllBuilds, LowerSteps, LowerEnv, Resolver.TableFor, Overlay, EntriesOf, FlavorsOf,
      Scopes, DistinctKeys, EnvHas;
    PlanParts(c, workflow, selected);
    var own := SelectWorkflow(c, workflow).workflow;
    OverlayTable(c.vars, own.vars);
    OverlayTable(c.env, own.env);
    OverlayKeys(c.env, own.env);
    var vars := Resolver.TableFor(c.vars) + Resolver.TableFor(own.vars);
    if name in Resolver.TableFor(Overlay(c.env, own.env)) {
      PairInPlan(vars, Overlay(c.env, own.env), name, LowerConfig(c, workflow, selected).value);
    }
  }

  // ── Targets ─────────────────────────────────────────────────────

  lemma {:induction false} BaseIs(targets: seq<PlatformTarget>, i: nat)
    requires i < |targets| && forall k :: 0 <= k < i ==> targets[k].platform != targets[i].platform
    ensures BaseTarget(targets, targets[i].platform) == Some(targets[i].spec)
  {
    if i > 0 {
      BaseIs(targets[1..], i - 1);
    }
  }

  function Own<T>(own: Option<T>, base: Option<T>): Option<T> {
    if own.Some? then own else base
  }

  function BaseBuild(c: Config, platform: Platform): Option<string> {
    var base := BaseTarget(c.targets, platform);
    if base.Some? then base.value.build else None
  }

  function BaseArtifacts(c: Config, platform: Platform): Option<seq<string>> {
    var base := BaseTarget(c.targets, platform);
    if base.Some? then base.value.artifacts else None
  }

  /** A workflow's target has the workflow's build and artifacts, else the top-level ones. */
  lemma {:induction false} WorkflowTargetsAre(c: Config, overrides: seq<PlatformTarget>)
    requires WorkflowTargets(c, overrides).Some?
    ensures
      var r := WorkflowTargets(c, overrides).value;
      |r| == |overrides| && forall i :: 0 <= i < |r| ==>
        && r[i].platform == overrides[i].platform
        && Some(r[i].build) == Own(overrides[i].spec.build, BaseBuild(c, overrides[i].platform))
        && r[i].artifacts == Own(overrides[i].spec.artifacts, BaseArtifacts(c, overrides[i].platform))
  {
    hide BaseTarget;
    if overrides != [] {
      WorkflowTargetsAre(c, overrides[1..]);
    }
  }

  /** It has no targets exactly when one of them has no build anywhere. */
  lemma {:induction false} WorkflowTargetsNeedBuilds(c: Config, overrides: seq<PlatformTarget>)
    ensures WorkflowTargets(c, overrides).None? <==>
      exists i :: 0 <= i < |overrides| && Own(overrides[i].spec.build, BaseBuild(c, overrides[i].platform)).None?
  {
    hide BaseTarget;
    if overrides != [] {
      var rest := overrides[1..];
      WorkflowTargetsNeedBuilds(c, rest);
      if i :| 0 <= i < |rest| && Own(rest[i].spec.build, BaseBuild(c, rest[i].platform)).None? {
        assert Own(overrides[i + 1].spec.build, BaseBuild(c, overrides[i + 1].platform)).None?;
      }
      if i :| 0 <= i < |overrides| && Own(overrides[i].spec.build, BaseBuild(c, overrides[i].platform)).None? {
        assert i > 0 ==> rest[i - 1] == overrides[i];
      }
    }
  }

  // ── Builds ──────────────────────────────────────────────────────

  ghost predicate IsBuild(step: PlanStep, vars: Table, target: Target, flavor: Option<string>) {
    && Resolution(vars, flavor, target.build).Some?
    && step.run == Trim(Resolution(vars, flavor, target.build).value)
    && step.platform == Some(target.platform) && step.flavor == flavor && step.phase == Build
  }

  lemma {:induction false} TargetBuildsAt(vars: Table, target: Target, scopes: seq<Option<string>>)
    requires TargetBuilds(vars, target, scopes).Some?
    ensures
      var r := TargetBuilds(vars, target, scopes).value;
      |r| == |scopes| && forall j :: 0 <= j < |r| ==> IsBuild(r[j], vars, target, scopes[j])
  {
    hide Resolution, Trim, BuildName;
    if scopes != [] {
      TargetBuildsAt(vars, target, scopes[1..]);
    }
  }

  lemma {:induction false} BuildIn(vars: Table, targets: seq<Target>, scopes: seq<Option<string>>, i: nat, j: nat) returns (k: nat)
    requires AllBuilds(vars, targets, scopes).Some? && i < |targets| && j < |scopes|
    ensures k < |AllBuilds(vars, targets, scopes).value| && IsBuild(AllBuilds(vars, targets, scopes).value[k], vars, targets[i], scopes[j])
  {
    hide TargetBuilds, IsBuild;
    TargetBuildsAt(vars, targets[0], scopes);
    if i == 0 {
      k := j;
    } else {
      var rest := BuildIn(vars, targets[1..], scopes, i - 1, j);
      k := |TargetBuilds(vars, targets[0], scopes).value| + rest;
    }
  }

  /** In every plan each target is built once for each flavor, with its own command resolved
      in that flavor. */
  lemma PlanBuildsEach(c: Config, workflow: Option<string>, selected: Option<seq<Platform>>, i: nat, j: nat) returns (k: nat)
    requires LowerConfig(c, workflow, selected).Some?
    requires
      var w := SelectWorkflow(c, workflow);
      && TargetsOf(c, w).Some? && SelectTargets(TargetsOf(c, w).value, selected).Some?
      && i < |SelectTargets(TargetsOf(c, w).value, selected).value| && j < |Scopes(FlavorsOf(c, w))|
    ensures
      var w, plan := SelectWorkflow(c, workflow), LowerConfig(c, workflow, selected).value;
      k < |plan.steps| && IsBuild(plan.steps[k], Resolver.TableFor(VarsOf(c, w)), SelectTargets(TargetsOf(c, w).value, selected).value[i],
                                  Scopes(FlavorsOf(c, w))[j])
  {
    hide LowerConfig, SelectWorkflow, TargetsOf, SelectTargets, AllBuilds, LowerSteps, LowerEnv, Resolver.TableFor, VarsOf, EntriesOf, FlavorsOf, Scopes,
      IsBuild, OtherSteps;
    PlanParts(c, workflow, selected);
    var w := SelectWorkflow(c, workflow);
    var vars := Resolver.TableFor(VarsOf(c, w));
    var targets, scopes := SelectTargets(TargetsOf(c, w).value, selected).value, Scopes(FlavorsOf(c, w));
    var at := BuildIn(vars, targets, scopes, i, j);
    var pre, post := StepsPlaced(vars, AllBuilds(vars, targets, scopes).value, if c.steps.Some? then c.steps.value else [], EntriesOf(c, w));
    k := |pre| + at;
  }

  /** A workflow that lists flavors, or steps, uses its own list; else the file's. */
  lemma WorkflowListsWin(c: Config, w: Workflow, name: string)
    ensures
      var selected := Named(name, w);
      && FlavorsOf(c, selected) == (if w.flavors.Some? then w.flavors.value else c.flavors)
      && EntriesOf(c, selected) == (if w.steps.Some? then w.steps.value else if c.steps.Some? then c.steps.value else [])
      && (w.targets.None? ==> TargetsOf(c, selected) == Some(TopTargets(c.targets)))
      && (w.targets.Some? ==> TargetsOf(c, selected) == WorkflowTargets(c, w.targets.value))
  {
    hide TopTargets, WorkflowTargets;
  }

  // ── Steps ───────────────────────────────────────────────────────

  /** A step of the plan runs this command under this name. */
  ghost predicate StepRuns(steps: seq<PlanStep>, vars: Table, name: string, run: string) {
    exists k :: 0 <= k < |steps| && steps[k].name == Trim(name) && Resolution(vars, None, run).Some?
                && steps[k].run == Trim(Resolution(vars, None, run).value)
  }

  lemma StepStays(steps: seq<PlanStep>, more: seq<PlanStep>, vars: Table, name: string, run: string)
    requires StepRuns(steps, vars, name, run)
    ensures StepRuns(steps + more, vars, name, run)
  {
    hide Trim, Resolution;
    var k :| 0 <= k < |steps| && steps[k].name == Trim(name) && Resolution(vars, None, run).Some?
             && steps[k].run == Trim(Resolution(vars, None, run).value);
    assert (steps + more)[k] == steps[k];
  }

  lemma EntryAdds(vars: Table, builds: seq<PlanStep>, shared: seq<StepEntry>, before: Around, entry: StepEntry) returns (more: seq<PlanStep>)
    requires before.Around? && AddEntry(vars, builds, shared, before, entry).Around?
    ensures AddEntry(vars, builds, shared, before, entry).steps == before.steps + more
    ensures StepOf(shared, entry).Some? ==>
      StepRuns(AddEntry(vars, builds, shared, before, entry).steps, vars, StepOf(shared, entry).value.0, StepOf(shared, entry).value.1)
  {
    hide Resolution, Trim, FindInline;
    var after := AddEntry(vars, builds, shared, before, entry);
    more := after.steps[|before.steps|..];
    var step := StepOf(shared, entry);
    if step.Some? {
      assert after.steps[|before.steps|].name == Trim(step.value.0);
    }
    assert before.steps + [] == before.steps;
    assert before.steps <= after.steps;
  }

  lemma {:induction false} EntryRuns(vars: Table, builds: seq<PlanStep>, shared: seq<StepEntry>, entries: seq<StepEntry>, i: nat, k: nat)
    requires i < k <= |entries| && LowerEntries(vars, builds, shared, entries, k).Around? && StepOf(shared, entries[i]).Some?
    ensures StepRuns(LowerEntries(vars, builds, shared, entries, k).steps, vars, StepOf(shared, entries[i]).value.0, StepOf(shared, entries[i]).value.1)
    decreases k
  {
    hide AddEntry, StepRuns, StepOf;
    var before := LowerEntries(vars, builds, shared, entries, k - 1);
    var more := EntryAdds(vars, builds, shared, before, entries[k - 1]);
    if i < k - 1 {
      EntryRuns(vars, builds, shared, entries, i, k - 1);
      StepStays(before.steps, more, vars, StepOf(shared, entries[i]).value.0, StepOf(shared, entries[i]).value.1);
    }
  }

  /** Every listed step is in the plan: an inline step under its own name and command, a
      reference under those of the top-level step. */
  lemma PlanRunsSteps(c: Config, workflow: Option<string>, selected: Option<seq<Platform>>, i: nat)
    requires LowerConfig(c, workflow, selected).Some? && i < |EntriesOf(c, SelectWorkflow(c, workflow))|
    requires StepOf(if c.steps.Some? then c.steps.value else [], EntriesOf(c, SelectWorkflow(c, workflow))[i]).Some?
    ensures
      var w := SelectWorkflow(c, workflow);
      var step := StepOf(if c.steps.Some? then c.steps.value else [], EntriesOf(c, w)[i]).value;
      StepRuns(LowerConfig(c, workflow, selected).value.steps, Resolver.TableFor(VarsOf(c, w)), step.0, step.1)
  {
    hide LowerConfig, SelectWorkflow, TargetsOf, SelectTargets, AllBuilds, LowerEntries, LowerEnv, Resolver.TableFor, VarsOf, EntriesOf, FlavorsOf, Scopes,
      StepRuns, StepOf;
    PlanParts(c, workflow, selected);
    var w := SelectWorkflow(c, workflow);
    var vars := Resolver.TableFor(VarsOf(c, w));
    var targets := SelectTargets(TargetsOf(c, w).value, selected).value;
    var builds := AllBuilds(vars, targets, Scopes(FlavorsOf(c, w))).value;
    var shared, entries := if c.steps.Some? then c.steps.value else [], EntriesOf(c, w);
    EntryRuns(vars, builds, shared, entries, i, |entries|);
    var step := StepOf(shared, entries[i]).value;
    StepStays(LowerEntries(vars, builds, shared, entries, |entries|).steps, builds, vars, step.0, step.1);
  }

  /** A reference stands for the first top-level step of its name. */
  lemma {:induction false} ReferenceFinds(shared: seq<StepEntry>, name: string)
    ensures
      var step := FindInline(shared, name);
      && (step.Some? ==> step.value in shared && step.value.Inline? && Trim(step.value.name) == Trim(name))
      && (step.None? <==> forall i :: 0 <= i < |shared| && shared[i].Inline? ==> Trim(shared[i].name) != Trim(name))
  {
    hide Trim;
    if shared != [] {
      ReferenceFinds(shared[1..], name);
      assert forall i :: 1 <= i < |shared| ==> shared[i] == shared[1..][i - 1];
    }
  }

  // ── Selections and flavors ──────────────────────────────────────

  /** A selection that is empty, repeats a platform or names one without a target. */
  ghost predicate BadSelection(targets: seq<Target>, selected: seq<Platform>) {
    || selected == []
    || (exists i, j :: 0 <= i < j < |selected| && selected[i] == selected[j])
    || (exists i :: 0 <= i < |selected| && forall k :: 0 <= k < |targets| ==> targets[k].platform != selected[i])
  }

  lemma BadSelectionIsInvalid(targets: seq<Target>, selected: seq<Platform>)
    ensures ValidSelection(targets, selected) <==> !BadSelection(targets, selected)
  {
    assert forall i, j :: 0 <= i < j < |selected| && selected[i] == selected[j] ==> BadSelection(targets, selected);
    if i :| 0 <= i < |selected| && !HasPlatform(targets, selected[i]) {
      assert forall k :: 0 <= k < |targets| ==> targets[k].platform != selected[i];
    }
    if i :| 0 <= i < |selected| && forall k :: 0 <= k < |targets| ==> targets[k].platform != selected[i] {
      assert !HasPlatform(targets, selected[i]);
    }
  }

  /** Such a selection is an error. */
  lemma BadSelectionFails(c: Config, workflow: Option<string>, selected: seq<Platform>)
    requires TargetsOf(c, SelectWorkflow(c, workflow)).Some? ==> BadSelection(TargetsOf(c, SelectWorkflow(c, workflow)).value, selected)
    ensures LowerConfig(c, workflow, Some(selected)).None?
  {
    hide SelectWorkflow, TargetsOf, LowerTargets, ValidSelection, BadSelection;
    var all := TargetsOf(c, SelectWorkflow(c, workflow));
    if all.Some? {
      BadSelectionIsInvalid(all.value, selected);
    }
  }

  /** Each flavor is a scope of its own, in order; without flavors there is one without. */
  lemma ScopesAre(flavors: seq<string>)
    ensures flavors == [] ==> Scopes(flavors) == [None]
    ensures flavors != [] ==> |Scopes(flavors)| == |flavors| && forall i :: 0 <= i < |flavors| ==> Scopes(flavors)[i] == Some(flavors[i])
  {
  }

  /** Top-level targets with a build are the plan's targets, in order. */
  lemma {:induction false} TopTargetsHave(targets: seq<PlatformTarget>, i: nat)
    requires i < |targets| && targets[i].spec.build.Some?
    ensures Target(targets[i].platform, targets[i].spec.build.value, targets[i].spec.artifacts) in TopTargets(targets)
  {
    if i > 0 {
      TopTargetsHave(targets[1..], i - 1);
    }
  }
}

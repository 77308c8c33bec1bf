/** `ConfigV2::lower` with the stateful resolver: it agrees with lowering by plain
    substitution, unless a limit is reached. */
module LowerFile {
  import opened Wrappers
  import opened Text
  import opened References
  import opened Expansion
  import opened ExpansionCost
  import opened Plan
  import opened Labels
  import opened Lower
  import opened Convert
  import Resolver

  type Scope = Resolver.Scope

  /** Wrong when something is an error, over when a limit is reached. */
  datatype Status = Fine | Wrong | Over

  ghost function FlavorsIn(scopes: seq<Scope>): (r: seq<Option<string>>)
    ensures |r| == |scopes| && forall i :: 0 <= i < |r| ==> r[i] == Resolver.FlavorIn(scopes[i])
  {
    seq(|scopes|, i requires 0 <= i < |scopes| => Resolver.FlavorIn(scopes[i]))
  }

  ghost predicate AllInMemory(memory: Resolver.Memory, scopes: seq<Scope>) {
    forall i :: 0 <= i < |scopes| ==> Resolver.InMemory(memory, scopes[i])
  }

  ghost predicate Within(budget: Resolver.Budget)
    reads budget
  {
    Resolver.WithinLimits(budget.expansions, budget.bytes)
  }

  /** A text and the flavor it is resolved in. */
  type Place = (Option<string>, string)

  /** A limit was reached: the budget is over, or one of these texts grows too long. */
  ghost predicate LimitMet(budget: Resolver.Budget, vars: Table, places: iset<Place>)
    reads budget
  {
    !Within(budget) || exists place :: place in places && SomeOverlong(vars, place.0, place.1)
  }

  /** What was done, with what is left to do. */
  ghost function Onto<T>(done: seq<T>, rest: Option<seq<T>>): Option<seq<T>> {
    if rest.None? then None else Some(done + rest.value)
  }

  method LookUp(resolver: Resolver.Resolver, text: string, scope: Scope, ghost places: iset<Place>) returns (status: Status, found: string)
    requires resolver.Valid() && Resolver.InMemory(resolver.memory, scope) && (Resolver.FlavorIn(scope), text) in places
    modifies resolver`cache, resolver`misses, resolver`scopes, resolver.budget
    ensures resolver.Valid()
    ensures status.Fine? ==> Resolution(resolver.Vars(), Resolver.FlavorIn(scope), text) == Some(found)
    ensures status.Wrong? ==> Resolution(resolver.Vars(), Resolver.FlavorIn(scope), text) == None
    ensures status.Over? ==> LimitMet(resolver.budget, resolver.Vars(), places)
    ensures status.Fine? && old(Within(resolver.budget)) ==> Within(resolver.budget)
  {
    hide Expands, NeverExpands, Resolution, Resolver.TableFor, Resolver.GoodCache, Size, Resolver.CacheKey, Resolver.InMemory,
      Resolver.WithinLimits, Resolver.FlavorIn;
    var r := resolver.Resolve(text, scope);
    Resolver.Answered(resolver.Vars(), text, scope, r);
    AnswersAreResolution(resolver.Vars(), text, scope, r);
    if r.Ok? {
      return Fine, r.text;
    }
    if !Resolver.IsLimit(r.error) {
      return Wrong, "";
    }
    LimitIsMet(resolver.budget, resolver.Vars(), text, scope, r, places);
    return Over, "";
  }

  lemma LimitIsMet(budget: Resolver.Budget, vars: Table, text: string, scope: Scope, r: Resolver.Resolved, places: iset<Place>)
    requires r.Err? && Resolver.IsLimit(r.error) && (Resolver.FlavorIn(scope), text) in places
    requires Resolver.Genuine(vars, Resolver.FlavorIn(scope), text, Cost(budget.expansions, budget.bytes), r)
    ensures LimitMet(budget, vars, places)
  {
    hide SomeOverlong, Resolver.FlavorIn;
    if r.error.TooLong? {
      var place := (Resolver.FlavorIn(scope), text);
      assert SomeOverlong(vars, place.0, place.1);
    }
  }

  // ── Builds ──────────────────────────────────────────────────────

  lemma MoreBuilds(vars: Table, target: Target, scopes: seq<Option<string>>, i: nat, done: seq<PlanStep>)
    requires i < |scopes|
    ensures
      var step := BuildStep(vars, target, scopes[i]);
      Onto(done, TargetBuilds(vars, target, scopes[i..]))
        == if step.None? then None else Onto(done + [step.value], TargetBuilds(vars, target, scopes[i + 1..]))
  {
    hide BuildStep;
    assert scopes[i..][1..] == scopes[i + 1..];
    var step, rest := BuildStep(vars, target, scopes[i]), TargetBuilds(vars, target, scopes[i + 1..]);
    if step.Some? && rest.Some? {
      assert done + ([step.value] + rest.value) == done + [step.value] + rest.value;
    }
  }

  method LowerTarget(resolver: Resolver.Resolver, target: Target, scopes: seq<Scope>,
                     ghost places: iset<Place>) returns (status: Status, steps: seq<PlanStep>)
    requires resolver.Valid() && AllInMemory(resolver.memory, scopes)
    requires forall i :: 0 <= i < |scopes| ==> (Resolver.FlavorIn(scopes[i]), target.build) in places
    modifies resolver`cache, resolver`misses, resolver`scopes, resolver.budget
    ensures resolver.Valid()
    ensures status.Fine? ==> TargetBuilds(resolver.Vars(), target, FlavorsIn(scopes)) == Some(steps)
    ensures status.Wrong? ==> TargetBuilds(resolver.Vars(), target, FlavorsIn(scopes)) == None
    ensures status.Over? ==> LimitMet(resolver.budget, resolver.Vars(), places)
    ensures status.Fine? && old(Within(resolver.budget)) ==> Within(resolver.budget)
  {
    hide TargetBuilds, Resolution, Resolver.TableFor, Resolver.GoodCache, Resolver.InMemory, Resolver.WithinLimits, BuildName, Trim;
    ghost var flavors := FlavorsIn(scopes);
    ghost var whole := TargetBuilds(resolver.Vars(), target, flavors);
    status, steps := Fine, [];
    StartBuilds(resolver.Vars(), target, flavors);
    for i := 0 to |scopes|
      invariant resolver.Valid() && !status.Over?
      invariant status.Fine? ==> whole == Onto(steps, TargetBuilds(resolver.Vars(), target, flavors[i..]))
      invariant status.Wrong? ==> whole == None
      invariant status.Fine? && old(Within(resolver.budget)) ==> Within(resolver.budget)
    {
      MoreBuilds(resolver.Vars(), target, flavors, i, steps);
      var found, run := LookUp(resolver, target.build, scopes[i], places);
      match found {
        case Fine =>
          var flavor := Resolver.FlavorIn(scopes[i]);
          steps := steps + [PlanStep(BuildName(target.platform, flavor), Build, Trim(run), Some(target.platform), flavor)];
        case Wrong =>
          status := Wrong;
        case Over =>
          return Over, [];
      }
    }
    EndBuilds(resolver.Vars(), target, flavors, steps);
  }

  lemma StartBuilds(vars: Table, target: Target, scopes: seq<Option<string>>)
    ensures TargetBuilds(vars, target, scopes) == Onto([], TargetBuilds(vars, target, scopes[0..]))
  {
    hide TargetBuilds;
    assert scopes[0..] == scopes;
    var all := TargetBuilds(vars, target, scopes);
    if all.Some? {
      assert [] + all.value == all.value;
    }
  }

  lemma EndBuilds(vars: Table, target: Target, scopes: seq<Option<string>>, done: seq<PlanStep>)
    ensures Onto(done, TargetBuilds(vars, target, scopes[|scopes|..])) == Some(done)
  {
    assert done + [] == done;
  }

  lemma MoreTargets(vars: Table, targets: seq<Target>, scopes: seq<Option<string>>, i: nat, done: seq<PlanStep>)
    requires i < |targets|
    ensures
      var steps := TargetBuilds(vars, targets[i], scopes);
      Onto(done, AllBuilds(vars, targets[i..], scopes))
        == if steps.None? then None else Onto(done + steps.value, AllBuilds(vars, targets[i + 1..], scopes))
  {
    hide TargetBuilds;
    assert targets[i..][1..] == targets[i + 1..];
    var steps, rest := TargetBuilds(vars, targets[i], scopes), AllBuilds(vars, targets[i + 1..], scopes);
    if steps.Some? && rest.Some? {
      assert done + (steps.value + rest.value) == done + steps.value + rest.value;
    }
  }

  lemma TargetsEnds(vars: Table, targets: seq<Target>, scopes: seq<Option<string>>, done: seq<PlanStep>)
    ensures AllBuilds(vars, targets, scopes) == Onto([], AllBuilds(vars, targets[0..], scopes))
    ensures Onto(done, AllBuilds(vars, targets[|targets|..], scopes)) == Some(done)
  {
    assert targets[0..] == targets && done + [] == done;
    var all := AllBuilds(vars, targets, scopes);
    if all.Some? {
      assert [] + all.value == all.value;
    }
  }

  /** The target builds, one per platform and flavor. */
  method LowerTargetBuilds(resolver: Resolver.Resolver, targets: seq<Target>, scopes: seq<Scope>,
                           ghost places: iset<Place>) returns (status: Status, steps: seq<PlanStep>)
    requires resolver.Valid() && AllInMemory(resolver.memory, scopes)
    requires forall i, j :: 0 <= i < |targets| && 0 <= j < |scopes| ==> (Resolver.FlavorIn(scopes[j]), targets[i].build) in places
    modifies resolver`cache, resolver`misses, resolver`scopes, resolver.budget
    ensures resolver.Valid()
    ensures status.Fine? ==> AllBuilds(resolver.Vars(), targets, FlavorsIn(scopes)) == Some(steps)
    ensures status.Wrong? ==> AllBuilds(resolver.Vars(), targets, FlavorsIn(scopes)) == None
    ensures status.Over? ==> LimitMet(resolver.budget, resolver.Vars(), places)
    ensures status.Fine? && old(Within(resolver.budget)) ==> Within(resolver.budget)
  {
    hide AllBuilds, TargetBuilds, Resolver.TableFor, Resolver.GoodCache, AllInMemory, Resolver.WithinLimits;
    ghost var flavors := FlavorsIn(scopes);
    ghost var whole := AllBuilds(resolver.Vars(), targets, flavors);
    status, steps := Fine, [];
    TargetsEnds(resolver.Vars(), targets, flavors, []);
    for i := 0 to |targets|
      invariant resolver.Valid() && !status.Over?
      invariant status.Fine? ==> whole == Onto(steps, AllBuilds(resolver.Vars(), targets[i..], flavors))
      invariant status.Wrong? ==> whole == None
      invariant status.Fine? && old(Within(resolver.budget)) ==> Within(resolver.budget)
    {
      MoreTargets(resolver.Vars(), targets, flavors, i, steps);
      var found, more := LowerTarget(resolver, targets[i], scopes, places);
      match found {
        case Fine => steps := steps + more;
        case Wrong => status := Wrong;
        case Over => return Over, [];
      }
    }
    TargetsEnds(resolver.Vars(), targets, flavors, steps);
  }

  // ── Steps ───────────────────────────────────────────────────────

  lemma NextEntry(vars: Table, builds: seq<PlanStep>, shared: seq<StepEntry>, entries: seq<StepEntry>, i: nat)
    requires i < |entries|
    ensures
      var before, after := LowerEntries(vars, builds, shared, entries, i), LowerEntries(vars, builds, shared, entries, i + 1);
      after == if before.BadSteps? then BadSteps else AddEntry(vars, builds, shared, before, entries[i])
  {
    hide AddEntry;
  }

  /** The steps around the builds. */
  method LowerStepEntries(resolver: Resolver.Resolver, builds: seq<PlanStep>, shared: seq<StepEntry>, entries: seq<StepEntry>, ghost places: iset<Place>)
    returns (status: Status, steps: seq<PlanStep>)
    requires resolver.Valid()
    requires forall i :: 0 <= i < |entries| && StepOf(shared, entries[i]).Some? ==> (None, StepOf(shared, entries[i]).value.1) in places
    modifies resolver`cache, resolver`misses, resolver`scopes, resolver.budget
    ensures resolver.Valid()
    ensures status.Fine? ==> LowerSteps(resolver.Vars(), builds, shared, entries) == Some(steps)
    ensures status.Wrong? ==> LowerSteps(resolver.Vars(), builds, shared, entries) == None
    ensures status.Over? ==> LimitMet(resolver.budget, resolver.Vars(), places)
    ensures status.Fine? && old(Within(resolver.budget)) ==> Within(resolver.budget)
  {
    hide LowerEntries, Resolution, Resolver.TableFor, Resolver.GoodCache, Resolver.WithinLimits, NamesOfSteps, FindInline, Trim;
    status, steps := Fine, [];
    var names := NamesOfSteps(builds);
    var placed := false;
    StartEntries(resolver.Vars(), builds, shared, entries);
    for i := 0 to |entries|
      invariant resolver.Valid() && !status.Over?
      invariant status.Fine? ==> LowerEntries(resolver.Vars(), builds, shared, entries, i) == Around(steps, names, placed)
      invariant status.Wrong? ==> LowerEntries(resolver.Vars(), builds, shared, entries, i).BadSteps?
      invariant status.Fine? && old(Within(resolver.budget)) ==> Within(resolver.budget)
    {
      NextEntry(resolver.Vars(), builds, shared, entries, i);
      var step := StepOf(shared, entries[i]);
      if entries[i].BuildHere? {
        if !placed {
          steps := steps + builds;
        }
        placed := true;
      } else if step.Some? {
        var name := Trim(step.value.0);
        if name in names {
          status := Wrong;
        } else {
          names := names + {name};
          var found, run := LookUp(resolver, step.value.1, Resolver.Outside, places);
          match found {
            case Fine => steps := steps + [PlanStep(name, if placed then PostBuild else PreBuild, Trim(run), None, None)];
            case Wrong => status := Wrong;
            case Over => return Over, [];
          }
        }
      }
    }
    if !placed {
      steps := steps + builds;
    }
  }

  lemma StartEntries(vars: Table, builds: seq<PlanStep>, shared: seq<StepEntry>, entries: seq<StepEntry>)
    ensures LowerEntries(vars, builds, shared, entries, 0) == Around([], NamesOfSteps(builds), false)
  {
  }

  /** The step that an entry stands for: its own, or the top-level step of its name. */
  function StepOf(shared: seq<StepEntry>, entry: StepEntry): (r: Option<(string, string)>)
    ensures entry.Inline? ==> r == Some((entry.name, entry.run))
  {
    match entry
    case BuildHere => None
    case Inline(name, run) => Some((name, run))
    case Ref(name) =>
      var step := FindInline(shared, name);
      if step.None? || !step.value.Inline? then None else Some((step.value.name, step.value.run))
  }

  // ── Env ─────────────────────────────────────────────────────────

  lemma MoreEnv(vars: Table, env: Pairs, i: nat, done: seq<EnvVar>)
    requires i < |env|
    ensures
      var value := Resolution(vars, None, env[i].1);
      Onto(done, LowerEnv(vars, env[i..]))
        == if value.None? then None else Onto(done + [EnvVar(Trim(env[i].0), Trim(value.value))], LowerEnv(vars, env[i + 1..]))
  {
    hide Resolution, Trim;
    assert env[i..][1..] == env[i + 1..];
    var value, rest := Resolution(vars, None, env[i].1), LowerEnv(vars, env[i + 1..]);
    if value.Some? && rest.Some? {
      var entry := EnvVar(Trim(env[i].0), Trim(value.value));
      assert done + ([entry] + rest.value) == done + [entry] + rest.value;
    }
  }

  lemma EnvEnds(vars: Table, env: Pairs, done: seq<EnvVar>)
    ensures LowerEnv(vars, env) == Onto([], LowerEnv(vars, env[0..]))
    ensures Onto(done, LowerEnv(vars, env[|env|..])) == Some(done)
  {
    assert env[0..] == env && done + [] == done;
    var all := LowerEnv(vars, env);
    if all.Some? {
      assert [] + all.value == all.value;
    }
  }

  method LowerEnvEntries(resolver: Resolver.Resolver, env: Pairs, ghost places: iset<Place>) returns (status: Status, r: seq<EnvVar>)
    requires resolver.Valid()
    requires forall i :: 0 <= i < |env| ==> (None, env[i].1) in places
    modifies resolver`cache, resolver`misses, resolver`scopes, resolver.budget
    ensures resolver.Valid()
    ensures status.Fine? ==> LowerEnv(resolver.Vars(), env) == Some(r)
    ensures status.Wrong? ==> LowerEnv(resolver.Vars(), env) == None
    ensures status.Over? ==> LimitMet(resolver.budget, resolver.Vars(), places)
    ensures status.Fine? && old(Within(resolver.budget)) ==> Within(resolver.budget)
  {
    hide LowerEnv, Resolution, Resolver.TableFor, Resolver.GoodCache, Resolver.WithinLimits, Trim;
    ghost var whole := LowerEnv(resolver.Vars(), env);
    status, r := Fine, [];
    EnvEnds(resolver.Vars(), env, []);
    for i := 0 to |env|
      invariant resolver.Valid() && !status.Over?
      invariant status.Fine? ==> whole == Onto(r, LowerEnv(resolver.Vars(), env[i..]))
      invariant status.Wrong? ==> whole == None
      invariant status.Fine? && old(Within(resolver.budget)) ==> Within(resolver.budget)
    {
      MoreEnv(resolver.Vars(), env, i, r);
      var found, value := LookUp(resolver, env[i].1, Resolver.Outside, places);
      match found {
        case Fine => r := r + [EnvVar(Trim(env[i].0), Trim(value))];
        case Wrong => status := Wrong;
        case Over => return Over, [];
      }
    }
    EnvEnds(resolver.Vars(), env, r);
  }

  // ── Artifacts ───────────────────────────────────────────────────

  lemma MoreScoped(vars: Table, pattern: string, scopes: seq<Option<string>>, i: nat, done: seq<string>)
    requires i < |scopes|
    ensures
      var lowered := LowerPattern(vars, pattern, scopes[i]);
      Onto(done, LowerScoped(vars, pattern, scopes[i..]))
        == if lowered.None? then None else Onto(done + [lowered.value], LowerScoped(vars, pattern, scopes[i + 1..]))
  {
    hide LowerPattern;
    assert scopes[i..][1..] == scopes[i + 1..];
    var lowered, rest := LowerPattern(vars, pattern, scopes[i]), LowerScoped(vars, pattern, scopes[i + 1..]);
    if lowered.Some? && rest.Some? {
      assert done + ([lowered.value] + rest.value) == done + [lowered.value] + rest.value;
    }
  }

  lemma ScopedEnds(vars: Table, pattern: string, scopes: seq<Option<string>>, done: seq<string>)
    ensures LowerScoped(vars, pattern, scopes) == Onto([], LowerScoped(vars, pattern, scopes[0..]))
    ensures Onto(done, LowerScoped(vars, pattern, scopes[|scopes|..])) == Some(done)
  {
    assert scopes[0..] == scopes && done + [] == done;
    var all := LowerScoped(vars, pattern, scopes);
    if all.Some? {
      assert [] + all.value == all.value;
    }
  }

  /** One pattern in one flavor: resolved, without secrets, and a valid pattern. */
  method LowerOnePattern(resolver: Resolver.Resolver, pattern: string, scope: Scope, ghost places: iset<Place>) returns (status: Status, lowered: string)
    requires resolver.Valid() && Resolver.InMemory(resolver.memory, scope)
    requires (Resolver.FlavorIn(scope), pattern) in places
    modifies resolver`cache, resolver`misses, resolver`scopes, resolver.budget
    ensures resolver.Valid()
    ensures status.Fine? ==> LowerPattern(resolver.Vars(), pattern, Resolver.FlavorIn(scope)) == Some(lowered)
    ensures status.Wrong? ==> LowerPattern(resolver.Vars(), pattern, Resolver.FlavorIn(scope)) == None
    ensures status.Over? ==> LimitMet(resolver.budget, resolver.Vars(), places)
    ensures status.Fine? && old(Within(resolver.budget)) ==> Within(resolver.budget)
  {
    hide Resolution, Resolver.TableFor, Resolver.GoodCache, Resolver.InMemory, Resolver.WithinLimits, Resolver.FlavorIn, Trim, Contains,
      IsArtifactPattern;
    var found, resolved := LookUp(resolver, pattern, scope, places);
    lowered := Trim(resolved);
    status := found;
    if found.Fine? && (Contains(lowered, OPEN) || !IsArtifactPattern(lowered)) {
      status := Wrong;
    }
  }

  /** One pattern in every flavor, each result kept once. */
  method LowerPatternIn(resolver: Resolver.Resolver, pattern: string, scopes: seq<Scope>, ghost before: seq<string>,
                        seen: seq<string>, ghost places: iset<Place>)
    returns (status: Status, ghost more: seq<string>, now: seq<string>)
    requires resolver.Valid() && AllInMemory(resolver.memory, scopes) && seen == Unique(before)
    requires forall j :: 0 <= j < |scopes| ==> (Resolver.FlavorIn(scopes[j]), pattern) in places
    modifies resolver`cache, resolver`misses, resolver`scopes, resolver.budget
    ensures resolver.Valid()
    ensures status.Fine? ==> LowerScoped(resolver.Vars(), pattern, FlavorsIn(scopes)) == Some(more) && now == Unique(before + more)
    ensures status.Wrong? ==> LowerScoped(resolver.Vars(), pattern, FlavorsIn(scopes)) == None
    ensures status.Over? ==> LimitMet(resolver.budget, resolver.Vars(), places)
    ensures status.Fine? && old(Within(resolver.budget)) ==> Within(resolver.budget)
  {
    hide LowerScoped, LowerPattern, Resolver.TableFor, Resolver.GoodCache, Resolver.InMemory, Resolver.WithinLimits, Resolver.FlavorIn,
      Unique;
    ghost var flavors := FlavorsIn(scopes);
    ghost var whole := LowerScoped(resolver.Vars(), pattern, flavors);
    status, more, now := Fine, [], seen;
    ScopedEnds(resolver.Vars(), pattern, flavors, []);
    assert before + [] == before;
    for i := 0 to |scopes|
      invariant resolver.Valid() && !status.Over?
      invariant status.Fine? ==> whole == Onto(more, LowerScoped(resolver.Vars(), pattern, flavors[i..])) && now == Unique(before + more)
      invariant status.Wrong? ==> whole == None
      invariant status.Fine? && old(Within(resolver.budget)) ==> Within(resolver.budget)
    {
      MoreScoped(resolver.Vars(), pattern, flavors, i, more);
      var found, lowered := LowerOnePattern(resolver, pattern, scopes[i], places);
      match found {
        case Fine =>
          UniqueWith(before + more, lowered);
          assert before + more + [lowered] == before + (more + [lowered]);
          if lowered !in now {
            now := now + [lowered];
          }
          more := more + [lowered];
        case Wrong =>
          status := Wrong;
        case Over =>
          return Over, [], [];
      }
    }
    ScopedEnds(resolver.Vars(), pattern, flavors, more);
  }

  lemma MorePatterns(vars: Table, patterns: seq<string>, scopes: seq<Option<string>>, i: nat, done: seq<string>)
    requires i < |patterns|
    ensures
      var lowered := LowerScoped(vars, patterns[i], scopes);
      Onto(done, LowerPatterns(vars, patterns[i..], scopes))
        == if lowered.None? then None else Onto(done + lowered.value, LowerPatterns(vars, patterns[i + 1..], scopes))
  {
    hide LowerScoped;
    assert patterns[i..][1..] == patterns[i + 1..];
    var lowered, rest := LowerScoped(vars, patterns[i], scopes), LowerPatterns(vars, patterns[i + 1..], scopes);
    if lowered.Some? && rest.Some? {
      assert done + (lowered.value + rest.value) == done + lowered.value + rest.value;
    }
  }

  lemma PatternsEnds(vars: Table, patterns: seq<string>, scopes: seq<Option<string>>, done: seq<string>)
    ensures LowerPatterns(vars, patterns, scopes) == Onto([], LowerPatterns(vars, patterns[0..], scopes))
    ensures Onto(done, LowerPatterns(vars, patterns[|patterns|..], scopes)) == Some(done)
  {
    assert patterns[0..] == patterns && done + [] == done;
    var all := LowerPatterns(vars, patterns, scopes);
    if all.Some? {
      assert [] + all.value == all.value;
    }
  }

  method LowerTargetPatterns(resolver: Resolver.Resolver, patterns: seq<string>, scopes: seq<Scope>,
                             ghost before: seq<string>, seen: seq<string>, ghost places: iset<Place>)
    returns (status: Status, ghost more: seq<string>, now: seq<string>)
    requires resolver.Valid() && AllInMemory(resolver.memory, scopes) && seen == Unique(before)
    requires forall i, j :: 0 <= i < |patterns| && 0 <= j < |scopes| ==> (Resolver.FlavorIn(scopes[j]), patterns[i]) in places
    modifies resolver`cache, resolver`misses, resolver`scopes, resolver.budget
    ensures resolver.Valid()
    ensures status.Fine? ==> LowerPatterns(resolver.Vars(), patterns, FlavorsIn(scopes)) == Some(more) && now == Unique(before + more)
    ensures status.Wrong? ==> LowerPatterns(resolver.Vars(), patterns, FlavorsIn(scopes)) == None
    ensures status.Over? ==> LimitMet(resolver.budget, resolver.Vars(), places)
    ensures status.Fine? && old(Within(resolver.budget)) ==> Within(resolver.budget)
  {
    hide LowerPatterns, LowerScoped, Resolver.TableFor, Resolver.GoodCache, AllInMemory, Resolver.WithinLimits, Unique;
    ghost var flavors := FlavorsIn(scopes);
    ghost var whole := LowerPatterns(resolver.Vars(), patterns, flavors);
    status, more, now := Fine, [], seen;
    PatternsEnds(resolver.Vars(), patterns, flavors, []);
    assert before + [] == before;
    for i := 0 to |patterns|
      invariant resolver.Valid() && !status.Over?
      invariant status.Fine? ==> whole == Onto(more, LowerPatterns(resolver.Vars(), patterns[i..], flavors)) && now == Unique(before + more)
      invariant status.Wrong? ==> whole == None
      invariant status.Fine? && old(Within(resolver.budget)) ==> Within(resolver.budget)
    {
      MorePatterns(resolver.Vars(), patterns, flavors, i, more);
      ghost var known := if status.Fine? then before + more else [];
      var shown := if status.Fine? then now else [];
      assert shown == Unique(known) by {
        NoTextUnique([]);
      }
      ghost var added;
      var found, next;
      found, added, next := LowerPatternIn(resolver, patterns[i], scopes, known, shown, places);
      match found {
        case Fine =>
          assert before + more + added == before + (more + added);
          more, now := more + added, next;
        case Wrong =>
          status := Wrong;
        case Over =>
          return Over, [], [];
      }
    }
    PatternsEnds(resolver.Vars(), patterns, flavors, more);
  }

  lemma MoreTargetPatterns(vars: Table, targets: seq<Target>, scopes: seq<Option<string>>, i: nat, done: seq<string>)
    requires i < |targets|
    ensures
      var lowered := LowerPatterns(vars, PatternsOf(targets[i]), scopes);
      Onto(done, AllPatterns(vars, targets[i..], scopes))
        == if lowered.None? then None else Onto(done + lowered.value, AllPatterns(vars, targets[i + 1..], scopes))
  {
    hide LowerPatterns, PatternsOf;
    assert targets[i..][1..] == targets[i + 1..];
    var lowered, rest := LowerPatterns(vars, PatternsOf(targets[i]), scopes), AllPatterns(vars, targets[i + 1..], scopes);
    if lowered.Some? && rest.Some? {
      assert done + (lowered.value + rest.value) == done + lowered.value + rest.value;
    }
  }

  lemma AllPatternsEnds(vars: Table, targets: seq<Target>, scopes: seq<Option<string>>, done: seq<string>)
    ensures AllPatterns(vars, targets, scopes) == Onto([], AllPatterns(vars, targets[0..], scopes))
    ensures Onto(done, AllPatterns(vars, targets[|targets|..], scopes)) == Some(done)
  {
    assert targets[0..] == targets && done + [] == done;
    var all := AllPatterns(vars, targets, scopes);
    if all.Some? {
      assert [] + all.value == all.value;
    }
  }

  /** The artifact patterns of all targets and flavors, each kept once. */
  method LowerArtifacts(resolver: Resolver.Resolver, targets: seq<Target>, scopes: seq<Scope>, ghost places: iset<Place>)
    returns (status: Status, ghost all: seq<string>, patterns: seq<string>)
    requires resolver.Valid() && AllInMemory(resolver.memory, scopes)
    requires forall i, j, k :: 0 <= i < |targets| && 0 <= j < |scopes| && 0 <= k < |PatternsOf(targets[i])| ==>
      (Resolver.FlavorIn(scopes[j]), PatternsOf(targets[i])[k]) in places
    modifies resolver`cache, resolver`misses, resolver`scopes, resolver.budget
    ensures resolver.Valid()
    ensures status.Fine? ==> AllPatterns(resolver.Vars(), targets, FlavorsIn(scopes)) == Some(all) && patterns == Unique(all)
    ensures status.Wrong? ==> AllPatterns(resolver.Vars(), targets, FlavorsIn(scopes)) == None
    ensures status.Over? ==> LimitMet(resolver.budget, resolver.Vars(), places)
    ensures status.Fine? && old(Within(resolver.budget)) ==> Within(resolver.budget)
  {
    hide AllPatterns, LowerPatterns, PatternsOf, Resolver.TableFor, Resolver.GoodCache, AllInMemory, Resolver.WithinLimits, Unique;
    ghost var flavors := FlavorsIn(scopes);
    ghost var whole := AllPatterns(resolver.Vars(), targets, flavors);
    status, all, patterns := Fine, [], [];
    AllPatternsEnds(resolver.Vars(), targets, flavors, []);
    NoTextUnique(all);
    for i := 0 to |targets|
      invariant resolver.Valid() && !status.Over?
      invariant status.Fine? ==> whole == Onto(all, AllPatterns(resolver.Vars(), targets[i..], flavors)) && patterns == Unique(all)
      invariant status.Wrong? ==> whole == None
      invariant status.Fine? && old(Within(resolver.budget)) ==> Within(resolver.budget)
    {
      MoreTargetPatterns(resolver.Vars(), targets, flavors, i, all);
      ghost var known := if status.Fine? then all else [];
      var shown := if status.Fine? then patterns else [];
      assert shown == Unique(known) by {
        NoTextUnique([]);
      }
      ghost var added;
      var found, next;
      found, added, next := LowerTargetPatterns(resolver, PatternsOf(targets[i]), scopes, known, shown, places);
      match found {
        case Fine =>
          all, patterns := known + added, next;
        case Wrong =>
          status := Wrong;
        case Over =>
          return Over, [], [];
      }
    }
    AllPatternsEnds(resolver.Vars(), targets, flavors, all);
  }

  // ── Vars ────────────────────────────────────────────────────────

  ghost predicate DistinctKeys(pairs: Pairs) {
    forall i, j :: 0 <= i < j < |pairs| ==> pairs[i].0 != pairs[j].0
  }

  lemma TableHolds(vars: Pairs, i: nat)
    requires i < |vars| && DistinctKeys(vars)
    ensures vars[i].0 in Resolver.TableFor(vars) && Resolver.TableFor(vars)[vars[i].0] == vars[i].1
  {
    hide Resolver.TableFor;
    Resolver.TableAt(vars, vars[i].0);
  }

  lemma {:induction false} PutKeys(pairs: Pairs, name: string, value: string)
    ensures forall i :: 0 <= i < |Put(pairs, name, value)| ==>
      Put(pairs, name, value)[i].0 == name || exists j :: 0 <= j < |pairs| && pairs[j].0 == Put(pairs, name, value)[i].0
    ensures DistinctKeys(pairs) ==> DistinctKeys(Put(pairs, name, value))
  {
    if pairs != [] && pairs[0].0 != name {
      PutKeys(pairs[1..], name, value);
      var rest, all := Put(pairs[1..], name, value), Put(pairs, name, value);
      forall i | 0 <= i < |all|
        ensures all[i].0 == name || exists j :: 0 <= j < |pairs| && pairs[j].0 == all[i].0
      {
        if i > 0 && rest[i - 1].0 != name {
          var j :| 0 <= j < |pairs[1..]| && pairs[1..][j].0 == rest[i - 1].0;
          assert pairs[j + 1].0 == all[i].0;
        } else if i == 0 {
          assert pairs[0].0 == all[0].0;
        }
      }
      if DistinctKeys(pairs) {
        forall i | 0 <= i < |rest|
          ensures rest[i].0 != pairs[0].0
        {
          if rest[i].0 != name {
            var j :| 0 <= j < |pairs[1..]| && pairs[1..][j].0 == rest[i].0;
            assert pairs[j + 1].0 == rest[i].0;
          }
        }
      }
    }
  }

  /** Replacing by name keeps each name once. */
  lemma {:induction false} OverlayKeys(base: Pairs, over: Pairs)
    requires DistinctKeys(base)
    ensures DistinctKeys(Overlay(base, over))
    decreases |over|
  {
    hide DistinctKeys;
    if over != [] {
      var init, last := over[..|over| - 1], over[|over| - 1];
      OverlayKeys(base, init);
      PutKeys(Overlay(base, init), last.0, last.1);
    }
  }

  ghost predicate VarsResolve(vars: Pairs) {
    forall i :: 0 <= i < |vars| ==> Resolution(Resolver.TableFor(vars), Some("flavor"), vars[i].1).Some?
  }

  /** Vars are tried out with a stand-in for the flavor. */
  method CheckVars(resolver: Resolver.Resolver, stand: Scope, ghost places: iset<Place>) returns (status: Status)
    requires resolver.Valid() && Resolver.InMemory(resolver.memory, stand) && DistinctKeys(resolver.vars)
    requires forall i :: 0 <= i < |resolver.vars| ==> (Resolver.FlavorIn(stand), resolver.vars[i].1) in places
    requires Resolver.FlavorIn(stand) == Some("flavor")
    modifies resolver`cache, resolver`misses, resolver`scopes, resolver.budget
    ensures resolver.Valid()
    ensures status.Fine? ==> VarsResolve(resolver.vars)
    ensures status.Wrong? ==> !VarsResolve(resolver.vars)
    ensures status.Over? ==> LimitMet(resolver.budget, resolver.Vars(), places)
    ensures status.Fine? && old(Within(resolver.budget)) ==> Within(resolver.budget)
  {
    hide DistinctKeys, Resolution, Resolver.TableFor, Resolver.GoodCache, Resolver.InMemory, Resolver.FlavorIn, Expands, NeverExpands,
      IsCycle, Resolver.CacheKey, Resolver.WithinLimits;
    status := Fine;
    for i := 0 to |resolver.vars|
      invariant resolver.Valid() && !status.Over?
      invariant status.Fine? && old(Within(resolver.budget)) ==> Within(resolver.budget)
      invariant status.Fine? ==> forall k :: 0 <= k < i ==> Resolution(resolver.Vars(), Some("flavor"), resolver.vars[k].1).Some?
      invariant status.Wrong? ==> !VarsResolve(resolver.vars)
    {
      TableHolds(resolver.vars, i);
      var r := resolver.ResolveVarText(resolver.vars[i].0, stand);
      Resolver.Answered(resolver.Vars(), resolver.vars[i].1, stand, r);
      AnswersAreResolution(resolver.Vars(), resolver.vars[i].1, stand, r);
      if r.Err? {
        if Resolver.IsLimit(r.error) {
          LimitIsMet(resolver.budget, resolver.Vars(), resolver.vars[i].1, stand, r, places);
          return Over;
        }
        status := Wrong;
      }
    }
  }

  // ── The whole file ──────────────────────────────────────────────

  function VarsOf(c: Config, w: Selected): Pairs {
    if w.Named? then Overlay(c.vars, w.workflow.vars) else c.vars
  }

  function EnvIn(c: Config, w: Selected): Pairs {
    if w.Named? then Overlay(c.env, w.workflow.env) else c.env
  }

  datatype Lowered = Planned(plan: PipelinePlan) | Errors | LimitReached

  /** The scopes of a workflow's flavors, as texts in memory. */
  ghost predicate ScopesOf(c: Config, w: Selected, memory: Resolver.Memory, scopes: seq<Scope>) {
    AllInMemory(memory, scopes) && FlavorsIn(scopes) == Scopes(FlavorsOf(c, w))
  }

  /** The texts of a file that are resolved for these targets, each in its flavor. */
  ghost predicate FilePlace(c: Config, w: Selected, targets: seq<Target>, place: Place) {
    var shared, entries := if c.steps.Some? then c.steps.value else [], EntriesOf(c, w);
    || (place.0 in Scopes(FlavorsOf(c, w)) &&
          exists i :: 0 <= i < |targets| && (targets[i].build == place.1 || place.1 in PatternsOf(targets[i])))
    || (place.0.None? && exists i :: 0 <= i < |entries| && StepOf(shared, entries[i]).Some? && StepOf(shared, entries[i]).value.1 == place.1)
    || (place.0.None? && exists i :: 0 <= i < |EnvIn(c, w)| && EnvIn(c, w)[i].1 == place.1)
  }

  /** A var's text, tried out with the stand-in flavor. */
  ghost predicate VarPlace(c: Config, w: Selected, place: Place) {
    place.0 == Some("flavor") && exists i :: 0 <= i < |VarsOf(c, w)| && VarsOf(c, w)[i].1 == place.1
  }

  lemma PlacesHeld(c: Config, w: Selected, targets: seq<Target>, scopes: seq<Scope>)
    requires FlavorsIn(scopes) == Scopes(FlavorsOf(c, w))
    ensures forall i, j :: 0 <= i < |targets| && 0 <= j < |scopes| ==> FilePlace(c, w, targets, (Resolver.FlavorIn(scopes[j]), targets[i].build))
    ensures forall i, j, k :: 0 <= i < |targets| && 0 <= j < |scopes| && 0 <= k < |PatternsOf(targets[i])| ==>
      FilePlace(c, w, targets, (Resolver.FlavorIn(scopes[j]), PatternsOf(targets[i])[k]))
    ensures
      var shared, entries := if c.steps.Some? then c.steps.value else [], EntriesOf(c, w);
      forall i :: 0 <= i < |entries| && StepOf(shared, entries[i]).Some? ==> FilePlace(c, w, targets, (None, StepOf(shared, entries[i]).value.1))
    ensures forall i :: 0 <= i < |EnvIn(c, w)| ==> FilePlace(c, w, targets, (None, EnvIn(c, w)[i].1))
  {
    hide Resolver.FlavorIn, PatternsOf, Scopes, FlavorsOf, EntriesOf, EnvIn, StepOf;
    assert forall j :: 0 <= j < |scopes| ==> FlavorsIn(scopes)[j] in FlavorsIn(scopes);
  }

  method LowerSelected(c: Config, w: Selected, targets: seq<Target>, resolver: Resolver.Resolver, scopes: seq<Scope>) returns (r: Lowered)
    requires resolver.Valid() && resolver.vars == VarsOf(c, w) && ScopesOf(c, w, resolver.memory, scopes)
    modifies resolver`cache, resolver`misses, resolver`scopes, resolver.budget
    ensures r.Planned? ==> LowerTargets(c, w, targets) == Some(r.plan)
    ensures r.Errors? ==> LowerTargets(c, w, targets) == None
    ensures r.LimitReached? ==> LimitMet(resolver.budget, resolver.Vars(), iset place | FilePlace(c, w, targets, place))
    ensures r.Planned? && old(Within(resolver.budget)) ==> Within(resolver.budget)
  {
    hide FilePlace, LimitMet, StepOf, PatternsOf, Resolver.FlavorIn, AllBuilds, LowerSteps, LowerEnv, AllPatterns, Overlay,
      Resolver.TableFor, Resolver.GoodCache, AllInMemory, Resolver.WithinLimits,
      Unique, NormalizeLabels, Trim, EntriesOf, FlavorsOf, Scopes;
    var shared := if c.steps.Some? then c.steps.value else [];
    ghost var places := iset place | FilePlace(c, w, targets, place);
    PlacesHeld(c, w, targets, scopes);
    var status, builds := LowerTargetBuilds(resolver, targets, scopes, places);
    if status.Over? {
      return LimitReached;
    }
    var stepsStatus, steps := LowerStepEntries(resolver, builds, shared, EntriesOf(c, w), places);
    if stepsStatus.Over? {
      return LimitReached;
    }
    var envStatus, env := LowerEnvEntries(resolver, EnvIn(c, w), places);
    if envStatus.Over? {
      return LimitReached;
    }
    ghost var all;
    var patternStatus, patterns;
    patternStatus, all, patterns := LowerArtifacts(resolver, targets, scopes, places);
    if patternStatus.Over? {
      return LimitReached;
    }
    if status.Wrong? || stepsStatus.Wrong? || envStatus.Wrong? || patternStatus.Wrong? {
      return Errors;
    }
    r := Planned(PipelinePlan(
      if w.Named? then Some(w.name) else None,
      seq(|targets|, i requires 0 <= i < |targets| => targets[i].platform),
      if c.flutter.Some? then Some(Trim(c.flutter.value)) else None,
      steps, env, patterns, c.offset,
      if NormalizeLabels(c.runsOn).Some? then NormalizeLabels(c.runsOn).value else [], c.isolation));
  }

  /** A limit was reached on the file's own texts. */
  ghost predicate LimitOfFile(c: Config, w: Selected, selected: Option<seq<Platform>>, validateVars: bool, budget: Resolver.Budget)
    reads budget
  {
    var vars := Resolver.TableFor(VarsOf(c, w));
    || (validateVars && LimitMet(budget, vars, iset place | VarPlace(c, w, place)))
    || (&& TargetsOf(c, w).Some? && SelectTargets(TargetsOf(c, w).value, selected).Some?
        && LimitMet(budget, vars, iset place | FilePlace(c, w, SelectTargets(TargetsOf(c, w).value, selected).value, place)))
  }

  /** `lower`: unless a limit is reached, the plan is the plan by plain substitution, and
      errors mean that there is none or, where vars are tried out, that one does not resolve. */
  method LowerWorkflow(
      c: Config, workflow: Option<string>, selected: Option<seq<Platform>>, budget: Resolver.Budget, validateVars: bool,
      scopes: seq<Scope>, stand: Scope, ghost memory: Resolver.Memory) returns (r: Lowered)
    requires DistinctKeys(c.vars)
    requires ScopesOf(c, SelectWorkflow(c, workflow), memory, scopes)
    requires Resolver.InMemory(memory, stand) && Resolver.FlavorIn(stand) == Some("flavor")
    modifies budget
    ensures r.Planned? ==> LowerConfig(c, workflow, selected) == Some(r.plan)
    ensures r.Planned? && validateVars ==> VarsResolve(VarsOf(c, SelectWorkflow(c, workflow)))
    ensures r.Errors? ==>
      LowerConfig(c, workflow, selected) == None || (validateVars && !VarsResolve(VarsOf(c, SelectWorkflow(c, workflow))))
    ensures r.Planned? && old(Within(budget)) ==> Within(budget)
    ensures r.LimitReached? ==> LimitOfFile(c, SelectWorkflow(c, workflow), selected, validateVars, budget)
  {
    hide SelectWorkflow, LowerTargets, VarsResolve, VarsOf, ScopesOf, DistinctKeys, Resolver.InMemory, Resolver.FlavorIn,
      Resolver.GoodCache, Resolver.WithinLimits, SelectTargets, TargetsOf;
    var w := SelectWorkflow(c, workflow);
    if w.Unknown? {
      return Errors;
    }
    assert DistinctKeys(VarsOf(c, w)) by {
      VarsKeys(c, w);
    }
    var resolver := new Resolver.Resolver(VarsOf(c, w), budget, memory);
    if validateVars {
      var status := CheckVars(resolver, stand, iset place | VarPlace(c, w, place));
      match status {
        case Fine =>
        case Wrong => return Errors;
        case Over => return LimitReached;
      }
    }
    var all := TargetsOf(c, w);
    if all.None? {
      return Errors;
    }
    var targets := SelectTargets(all.value, selected);
    if targets.None? {
      return Errors;
    }
    r := LowerSelected(c, w, targets.value, resolver, scopes);
  }

  lemma VarsKeys(c: Config, w: Selected)
    requires DistinctKeys(c.vars)
    ensures DistinctKeys(VarsOf(c, w))
  {
    hide DistinctKeys, Overlay;
    if w.Named? {
      OverlayKeys(c.vars, w.workflow.vars);
    }
  }
}

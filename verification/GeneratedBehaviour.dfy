/** What a generated file does. */
module GeneratedBehaviour {
  import opened Wrappers
  import opened Text
  import opened References
  import opened StepNames
  import opened SecretText
  import opened Plan
  import opened Lower
  import opened GeneratedFile
  import opened UserSteps
  import opened Convert

  // ── Steps ───────────────────────────────────────────────────────

  function Did(phase: Phase, steps: seq<Step>): (r: seq<StepBehaviour>)
    ensures |r| == |steps|
    ensures forall i :: 0 <= i < |r| ==> r[i] == StepBehaviour(phase, Trim(steps[i].run), None)
  {
    seq(|steps|, i requires 0 <= i < |steps| => StepBehaviour(phase, Trim(steps[i].run), None))
  }

  function Built(targets: seq<BuildTarget>): (r: seq<StepBehaviour>)
    ensures |r| == |targets|
    ensures forall i :: 0 <= i < |r| ==> r[i] == StepBehaviour(Build, Trim(targets[i].build), Some(targets[i].platform))
  {
    seq(|targets|, i requires 0 <= i < |targets| => StepBehaviour(Build, Trim(targets[i].build), Some(targets[i].platform)))
  }

  lemma DidSteps(phase: Phase, steps: seq<Step>)
    ensures Steps(StepsIn(phase, steps)) == Did(phase, steps)
  {
    hide Trim;
    forall i | 0 <= i < |steps|
      ensures Steps(StepsIn(phase, steps))[i] == Did(phase, steps)[i]
    {
      TrimTwice(steps[i].run);
    }
  }

  lemma BuiltSteps(targets: seq<BuildTarget>)
    ensures Steps(BuildsOf(targets)) == Built(targets)
  {
    hide Trim, BuildName;
    forall i | 0 <= i < |targets|
      ensures Steps(BuildsOf(targets))[i] == Built(targets)[i]
    {
      TrimTwice(targets[i].build);
    }
  }

  lemma GeneratedSteps(g: Generated)
    ensures Steps(PlanFor(g).steps) == Did(PreBuild, g.before) + Built(g.targets) + Did(PostBuild, g.after)
  {
    hide Steps, StepsIn, BuildsOf, Did, Built, Unique, Concat, EnvOf, PatternLists, TrimmedVersion;
    StepsConcat(StepsIn(PreBuild, g.before) + BuildsOf(g.targets), StepsIn(PostBuild, g.after));
    StepsConcat(StepsIn(PreBuild, g.before), BuildsOf(g.targets));
    DidSteps(PreBuild, g.before);
    DidSteps(PostBuild, g.after);
    BuiltSteps(g.targets);
  }

  /** User commands do the same as steps and as commands of settings. */
  lemma UserStepsRun(phase: Phase, names: set<string>, commands: seq<string>)
    ensures Did(phase, StepsFor(names, commands)) == Runs(phase, UserCommands(commands))
  {
    hide Trim, StepsFor;
    StepsForAre(names, commands);
    forall i | 0 <= i < |commands|
      ensures Did(phase, StepsFor(names, commands))[i] == Runs(phase, UserCommands(commands))[i]
    {
      TrimTwice(commands[i]);
    }
  }

  lemma DidConcat(phase: Phase, a: seq<Step>, b: seq<Step>)
    ensures Did(phase, a + b) == Did(phase, a) + Did(phase, b)
  {
    hide Trim;
  }

  lemma PubGetRun(phase: Phase, names: set<string>)
    ensures Did(phase, [PubGetStep(names)]) == Runs(phase, UserCommands([PubGet()]))
  {
    hide Trim, UniqueName, PubGet, GetPackages;
  }

  lemma BeforeRun(names: set<string>, packages: bool, commands: seq<string>)
    ensures Did(PreBuild, StepsBefore(names, packages, commands))
      == Runs(PreBuild, (if packages then UserCommands([PubGet()]) else []) + UserCommands(commands))
  {
    hide Did, Runs, StepsFor, PubGetStep, UserCommands, PubGet, StepNameSet;
    var first := if packages then [PubGetStep(names)] else [];
    var rest := StepsFor(names + StepNameSet(first), commands);
    DidConcat(PreBuild, first, rest);
    UserStepsRun(PreBuild, names + StepNameSet(first), commands);
    RunsConcat(PreBuild, if packages then UserCommands([PubGet()]) else [], UserCommands(commands));
    if packages {
      PubGetRun(PreBuild, names);
    } else {
      NothingRuns();
    }
  }

  lemma NothingRuns()
    ensures Did(PreBuild, []) == [] && Runs(PreBuild, []) == []
  {
  }

  // ── Env and version ─────────────────────────────────────────────

  lemma EnvKept(env: seq<EnvVar>)
    ensures TrimmedEnv(EnvOf(EnvPairs(env))) == TrimmedEnv(env)
  {
    hide Trim;
    forall i | 0 <= i < |env|
      ensures TrimmedEnv(EnvOf(EnvPairs(env)))[i] == TrimmedEnv(env)[i]
    {
      TrimTwice(env[i].key);
      TrimTwice(env[i].value);
    }
  }

  lemma VersionKept(version: Option<string>)
    ensures
      var kept := TrimmedVersion(version);
      && TrimmedVersion(if kept.Some? then Some(Trim(kept.value)) else None) == kept
      && (kept.Some? ==> !IsBlank(kept.value))
  {
    hide TrimStart, TrimEnd;
    if version.Some? {
      TrimTwice(version.value);
    }
  }

  // ── Artifacts ───────────────────────────────────────────────────

  lemma {:induction false} UniqueTwice(a: seq<string>, b: seq<string>)
    requires forall x :: x in b ==> x in a
    ensures Unique(a + b) == Unique(a)
  {
    hide Unique;
    if b == [] {
      assert a + b == a;
    } else {
      var init, last := b[..|b| - 1], b[|b| - 1];
      assert b == init + [last];
      assert forall x :: x in init ==> x in b;
      UniqueTwice(a, init);
      UniqueWith(a + init, last);
      assert a + init + [last] == a + b;
    }
  }

  lemma {:induction false} ConcatOf(lists: seq<seq<string>>, list: seq<string>)
    requires forall i :: 0 <= i < |lists| ==> lists[i] == list
    ensures forall x :: x in Concat(lists) ==> x in list
  {
    if lists != [] {
      ConcatOf(lists[1..], list);
    }
  }

  /** The same list at every target counts once. */
  lemma RepeatedList(lists: seq<seq<string>>, list: seq<string>)
    requires lists != [] && Distinct(list)
    requires forall i :: 0 <= i < |lists| ==> lists[i] == list
    ensures Unique(Concat(lists)) == list
  {
    hide Unique;
    ConcatOf(lists[1..], list);
    UniqueTwice(list, Concat(lists[1..]));
    UniqueKept(list);
  }

  ghost predicate Trimmed(texts: seq<string>) {
    forall i :: 0 <= i < |texts| ==> Trim(texts[i]) == texts[i]
  }

  lemma TrimmedKept(texts: seq<string>)
    requires Trimmed(texts)
    ensures TrimAll(texts) == texts
  {
    hide Trim;
  }

  lemma {:induction false} ConcatTrimmed(lists: seq<seq<string>>)
    requires forall i :: 0 <= i < |lists| ==> Trimmed(lists[i])
    ensures Trimmed(Concat(lists))
  {
    hide Trim;
    if lists != [] {
      ConcatTrimmed(lists[1..]);
    }
  }

  lemma UniqueTrimmed(texts: seq<string>)
    requires Trimmed(texts)
    ensures Trimmed(Unique(texts)) && Distinct(Unique(texts))
  {
    hide Trim, Unique;
    var once := Unique(texts);
    forall i | 0 <= i < |once|
      ensures Trim(once[i]) == once[i]
    {
      assert once[i] in texts;
    }
  }

  lemma DefaultsTrimmed(targets: seq<BuildTarget>)
    ensures Trimmed(DefaultsFor(targets)) && Distinct(DefaultsFor(targets))
  {
    hide Unique, Concat, Trim, DefaultArtifacts;
    var lists := DefaultLists(targets);
    forall i | 0 <= i < |lists|
      ensures Trimmed(lists[i])
    {
      DefaultsAreGood(targets[i].platform);
      assert TrimAll(lists[i]) == lists[i];
    }
    ConcatTrimmed(lists);
    UniqueTrimmed(Concat(lists));
  }

  lemma DefaultPatterns(g: Generated)
    requires g.artifacts == None
    ensures PatternLists(g) == DefaultLists(g.targets)
  {
    hide DefaultArtifacts, TrimAll;
    forall i | 0 <= i < |g.targets|
      ensures PatternLists(g)[i] == DefaultLists(g.targets)[i]
    {
      DefaultsAreGood(g.targets[i].platform);
    }
  }

  /** The list written is the list collected; an empty one becomes the defaults. */
  lemma ListKept(g: Generated, list: seq<string>)
    requires g.targets != [] && Trimmed(list) && Distinct(list)
    requires g.artifacts == ExplicitList(list, g.targets)
    ensures Unique(TrimAll(PlanFor(g).artifacts)) == if list == [] then DefaultsFor(g.targets) else list
  {
    hide Unique, Concat, TrimAll, DefaultArtifacts, Trimmed, Distinct, DefaultLists, PatternLists;
    var result := if list == [] then DefaultsFor(g.targets) else list;
    if g.artifacts.Some? {
      TrimmedKept(list);
      RepeatedList(PatternLists(g), list);
    } else {
      DefaultPatterns(g);
    }
    assert PlanFor(g).artifacts == result;
    DefaultsTrimmed(g.targets);
    TrimmedKept(result);
    DistinctKept(result);
  }

  lemma DistinctKept(texts: seq<string>)
    requires Distinct(texts)
    ensures Unique(texts) == texts
  {
    UniqueKept(texts);
  }

  // ── Secrets ─────────────────────────────────────────────────────

  ghost predicate SecretTexts(texts: seq<string>) {
    forall i :: 0 <= i < |texts| ==> SecretsOnly(texts[i])
  }

  /** Secret texts joined with blanks. */
  lemma {:induction false} JoinedSecrets(texts: seq<string>, separator: string)
    requires SecretTexts(texts) && '$' !in separator && separator != [] && separator[0] != '{'
    ensures SecretsOnly(Join(texts, separator))
  {
    hide SecretsOnly;
    if texts == [] {
      NoDollar("");
    } else if |texts| > 1 {
      JoinedSecrets(texts[1..], separator);
      var rest := Join(texts[1..], separator);
      BlanksInFront(separator, rest);
      SecretsConcat(texts[0], separator + rest);
      assert texts[0] + separator + rest == texts[0] + (separator + rest);
    }
  }

  lemma ArgsSecret(base: string, args: seq<string>)
    requires '$' !in base && SecretTexts(args)
    ensures SecretsOnly(WithArgs(base, args))
  {
    hide SecretsOnly, Join;
    NoDollar(base);
    if args != [] {
      JoinedSecrets(args, " ");
      BlanksInFront(base + " ", Join(args, " "));
    }
  }

  lemma BaseHasNoDollar(platform: Platform)
    ensures '$' !in BaseCommand(platform)
  {
  }

  lemma BundleHasNoDollar()
    ensures '$' !in BundleBase()
  {
  }

  ghost predicate SecretCommands(s: Settings) {
    && SecretTexts(s.args.android) && SecretTexts(s.args.ios) && SecretTexts(s.args.macos)
    && (s.commands.android.Some? ==> SecretsOnly(s.commands.android.value))
    && (s.commands.ios.Some? ==> SecretsOnly(s.commands.ios.value))
    && (s.commands.macos.Some? ==> SecretsOnly(s.commands.macos.value))
  }

  lemma PlatformCommandSecret(s: Settings, platform: Platform)
    requires SecretCommands(s)
    ensures SecretsOnly(PlatformCommand(s, platform))
  {
    hide SecretsOnly, BaseCommand, SecretTexts, WithArgs, BundleBase;
    BaseHasNoDollar(platform);
    if For(s.commands, platform).None? {
      ArgsSecret(BaseCommand(platform), For(s.args, platform));
    }
  }

  lemma {:induction false} BundleArgsSecret(args: seq<string>)
    requires SecretTexts(args)
    ensures SecretTexts(BundleArgs(args))
  {
    hide SecretsOnly;
    if args != [] {
      BundleArgsSecret(args[1..]);
    }
  }

  lemma BundleCommandSecret(s: Settings)
    requires SecretCommands(s)
    ensures SecretsOnly(BundleCommand(s))
  {
    hide SecretsOnly, BaseCommand, SecretTexts, WithArgs, BundleBase, BundleArgs;
    BundleHasNoDollar();
    BundleArgsSecret(s.args.android);
    ArgsSecret(BundleBase(), BundleArgs(s.args.android));
  }

  lemma UserStepsSecret(names: set<string>, commands: seq<string>)
    requires SecretTexts(commands)
    ensures SecretSteps(StepsFor(names, commands))
  {
    hide SecretsOnly, StepsFor, Trim;
    StepsForAre(names, commands);
    forall i | 0 <= i < |commands|
      ensures SecretsOnly(StepsFor(names, commands)[i].run)
    {
      SecretsTrim(commands[i]);
    }
  }

  // ── Steps before the builds ─────────────────────────────────────

  lemma PubGetFacts()
    ensures SecretsOnly(PubGet()) && IsName(GetPackages())
  {
    hide SecretsOnly;
    NoDollar(PubGet());
  }

  lemma BeforeNames(names: set<string>, packages: bool, commands: seq<string>)
    ensures OwnNames(names, StepsBefore(names, packages, commands))
  {
    hide StepsFor, UniqueName, IsName, GetPackages, PubGet, StepNameSet;
    var first := if packages then [PubGetStep(names)] else [];
    var rest := StepsFor(names + StepNameSet(first), commands);
    PubGetFacts();
    UniqueIsName(names, GetPackages());
    assert OwnNames(names, first);
    StepsForAre(names + StepNameSet(first), commands);
    OwnNamesConcat(names, first, rest);
  }

  lemma BeforeSecret(names: set<string>, packages: bool, commands: seq<string>)
    requires SecretTexts(commands)
    ensures SecretSteps(StepsBefore(names, packages, commands))
  {
    hide StepsFor, UniqueName, GetPackages, PubGet, SecretsOnly, StepNameSet;
    PubGetFacts();
    var first := if packages then [PubGetStep(names)] else [];
    UserStepsSecret(names + StepNameSet(first), commands);
  }

  /** Steps with names of their own clash with nothing. */
  lemma OwnNamesPlannable(targets: seq<BuildTarget>, steps: seq<Step>)
    requires OwnNames(BuildNames(targets), steps)
    ensures DistinctSteps(steps) && ClearOfBuilds(steps, targets)
  {
    hide BuildName, Trim;
    forall i | 0 <= i < |steps|
      ensures Trim(steps[i].name) == steps[i].name
    {
      assert IsName(steps[i].name);
      TrimTrimmed(steps[i].name);
    }
  }
}

/** Rewriting a version 1 file as a version 2 file. */
module Convert {
  import opened Wrappers
  import opened Text
  import opened References
  import opened StepNames
  import opened Plan
  import opened Lower
  import opened GeneratedFile
  import opened UserSteps

  // ── A shared build ──────────────────────────────────────────────

  /** A command in a subshell of its own; a comment or a line break must not swallow
      the closing parenthesis. */
  function Subshell(command: string): string {
    if '#' in command || '\n' in command then "(\n" + command + "\n)" else "( " + command + " )"
  }

  function Subshells(commands: seq<string>): (r: seq<string>)
    ensures |r| == |commands|
    ensures forall i :: 0 <= i < |r| ==> r[i] == Subshell(Trim(commands[i]))
  {
    seq(|commands|, i requires 0 <= i < |commands| => Subshell(Trim(commands[i])))
  }

  /** `join_shared_build`. */
  function JoinShared(commands: seq<string>): string {
    if |commands| == 1 then Trim(commands[0]) else Join(Subshells(commands), " &&\n")
  }

  // ── The parts of the new file ───────────────────────────────────

  predicate DistinctPlatforms(platforms: seq<Platform>) {
    forall i, j :: 0 <= i < j < |platforms| ==> platforms[i] != platforms[j]
  }

  predicate NoReferences(patterns: seq<string>) {
    forall i :: 0 <= i < |patterns| ==> !Contains(patterns[i], OPEN)
  }

  /** Each platform's own command, or the shared build as the first platform's. */
  function TargetsOfSettings(s: Settings): (targets: seq<BuildTarget>)
    requires s.platforms != []
    ensures targets != []
  {
    if s.build == [] then
      seq(|s.platforms|, i requires 0 <= i < |s.platforms| => BuildTarget(s.platforms[i], PlatformCommand(s, s.platforms[i])))
    else [BuildTarget(s.platforms[0], JoinShared(s.build))]
  }

  function DefaultLists(targets: seq<BuildTarget>): (lists: seq<seq<string>>)
    ensures |lists| == |targets|
    ensures forall i :: 0 <= i < |lists| ==> lists[i] == DefaultArtifacts(targets[i].platform)
  {
    seq(|targets|, i requires 0 <= i < |targets| => DefaultArtifacts(targets[i].platform))
  }

  function DefaultsFor(targets: seq<BuildTarget>): seq<string> {
    Unique(Concat(DefaultLists(targets)))
  }

  /** The list every target gets, unless it is what the defaults already give. An empty
      list is written as an empty YAML value, which reads as no list. */
  function ExplicitList(patterns: seq<string>, targets: seq<BuildTarget>): Option<seq<string>> {
    if patterns == DefaultsFor(targets) || patterns == [] then None else Some(patterns)
  }

  function BuildNames(targets: seq<BuildTarget>): (names: set<string>)
    ensures forall name :: name in names <==> exists i :: 0 <= i < |targets| && BuildName(targets[i].platform, None) == name
  {
    set i | 0 <= i < |targets| :: BuildName(targets[i].platform, None)
  }

  function GetPackages(): string {
    "Get packages"
  }

  function PubGetStep(names: set<string>): Step {
    Step(UniqueName(names, GetPackages()), PubGet())
  }

  function EnvPairs(env: seq<EnvVar>): (r: Pairs)
    ensures |r| == |env|
    ensures forall i :: 0 <= i < |r| ==> r[i] == (Trim(env[i].key), Trim(env[i].value))
  {
    seq(|env|, i requires 0 <= i < |env| => (Trim(env[i].key), Trim(env[i].value)))
  }

  /** Steps before the builds, named in order. */
  function StepsBefore(names: set<string>, packages: bool, commands: seq<string>): seq<Step> {
    var first := if packages then [PubGetStep(names)] else [];
    first + StepsFor(names + StepNameSet(first), commands)
  }

  /** The new file. */
  function Converted(s: Settings): Generated
    requires s.platforms != []
  {
    var targets := TargetsOfSettings(s);
    var names := BuildNames(targets);
    var before := StepsBefore(names, s.build == [], s.preBuild);
    Generated(
      TrimmedVersion(s.flutterVersion), targets, ExplicitList(Unique(TrimAll(s.artifacts)), targets),
      before, StepsFor(names + StepNameSet(before), s.postBuild), EnvPairs(s.env), None,
      s.runsOn, s.isolation, s.offset)
  }

  // ── `convert` ───────────────────────────────────────────────────

  method CheckPlatforms(platforms: seq<Platform>) returns (ok: bool)
    ensures ok == DistinctPlatforms(platforms)
  {
    for index := 0 to |platforms|
      invariant forall i, j :: 0 <= i < j < index ==> platforms[i] != platforms[j]
    {
      if platforms[index] in platforms[..index] {
        return false;
      }
    }
    ok := true;
  }

  lemma UniqueWith(texts: seq<string>, text: string)
    ensures Unique(texts + [text]) == if text in Unique(texts) then Unique(texts) else Unique(texts) + [text]
  {
    var all := texts + [text];
    assert all[..|all| - 1] == texts;
  }

  lemma NoTextUnique(texts: seq<string>)
    requires texts == []
    ensures Unique(texts) == []
  {
  }

  lemma TrimAllWith(texts: seq<string>, text: string)
    ensures TrimAll(texts + [text]) == TrimAll(texts) + [Trim(text)]
  {
    hide Trim;
  }

  /** Patterns kept once each, refused when one holds a reference. */
  method CollectArtifacts(patterns: seq<string>) returns (r: Option<seq<string>>)
    ensures r == if NoReferences(patterns) then Some(Unique(TrimAll(patterns))) else None
  {
    hide Trim, Contains, Unique;
    var artifacts := [];
    NoTextUnique(TrimAll(patterns[..0]));
    for i := 0 to |patterns|
      invariant forall k :: 0 <= k < i ==> !Contains(patterns[k], OPEN)
      invariant artifacts == Unique(TrimAll(patterns[..i]))
    {
      if Contains(patterns[i], OPEN) {
        return None;
      }
      var pattern := Trim(patterns[i]);
      assert patterns[..i + 1] == patterns[..i] + [patterns[i]];
      TrimAllWith(patterns[..i], patterns[i]);
      UniqueWith(TrimAll(patterns[..i]), pattern);
      if pattern !in artifacts {
        artifacts := artifacts + [pattern];
      }
    }
    assert patterns[..|patterns|] == patterns;
    r := Some(artifacts);
  }

  lemma {:induction false} ConcatWith(lists: seq<seq<string>>, list: seq<string>)
    ensures Concat(lists + [list]) == Concat(lists) + list
  {
    if lists == [] {
      assert lists + [list] == [list] && Concat([list][1..]) == [];
      assert Concat([list]) == list + [];
    } else {
      ConcatWith(lists[1..], list);
      assert (lists + [list])[1..] == lists[1..] + [list];
    }
  }

  /** More patterns, each kept once. */
  method AddOnce(ghost before: seq<string>, seen: seq<string>, patterns: seq<string>) returns (r: seq<string>)
    requires seen == Unique(before)
    ensures r == Unique(before + patterns)
  {
    hide Unique;
    r := seen;
    assert before + patterns[..0] == before;
    for j := 0 to |patterns|
      invariant r == Unique(before + patterns[..j])
    {
      UniqueWith(before + patterns[..j], patterns[j]);
      assert before + patterns[..j] + [patterns[j]] == before + patterns[..j + 1];
      if patterns[j] !in r {
        r := r + [patterns[j]];
      }
    }
    assert patterns[..|patterns|] == patterns;
  }

  lemma NextDefaults(targets: seq<BuildTarget>, i: nat)
    requires i < |targets|
    ensures Concat(DefaultLists(targets)[..i + 1]) == Concat(DefaultLists(targets)[..i]) + DefaultArtifacts(targets[i].platform)
  {
    hide DefaultArtifacts, Concat;
    var lists := DefaultLists(targets);
    ConcatWith(lists[..i], lists[i]);
    assert lists[..i] + [lists[i]] == lists[..i + 1];
  }

  method CollectDefaults(targets: seq<BuildTarget>) returns (r: seq<string>)
    ensures r == DefaultsFor(targets)
  {
    hide Unique, DefaultArtifacts, Concat, DefaultLists, Join, DefaultSegments;
    r := [];
    NoneUnique(DefaultLists(targets));
    for i := 0 to |targets|
      invariant r == Unique(Concat(DefaultLists(targets)[..i]))
    {
      NextDefaults(targets, i);
      r := AddOnce(Concat(DefaultLists(targets)[..i]), r, DefaultArtifacts(targets[i].platform));
    }
    assert DefaultLists(targets)[..|targets|] == DefaultLists(targets);
  }

  lemma NoneUnique(lists: seq<seq<string>>)
    ensures Unique(Concat(lists[..0])) == []
  {
  }

  method CollectTargets(s: Settings) returns (targets: seq<BuildTarget>)
    requires s.platforms != []
    ensures targets == TargetsOfSettings(s)
  {
    hide PlatformCommand, JoinShared;
    targets := [];
    if s.build == [] {
      for i := 0 to |s.platforms|
        invariant targets == TargetsOfSettings(s)[..i]
      {
        targets := targets + [BuildTarget(s.platforms[i], PlatformCommand(s, s.platforms[i]))];
      }
    } else {
      targets := [BuildTarget(s.platforms[0], JoinShared(s.build))];
    }
  }

  /** `convert`: refuses repeated platforms and patterns with references. */
  method ConvertSettings(s: Settings) returns (r: Option<Generated>)
    requires s.platforms != []
    ensures r == if DistinctPlatforms(s.platforms) && NoReferences(s.artifacts) then Some(Converted(s)) else None
  {
    hide TargetsOfSettings, DistinctPlatforms, NoReferences, StepsFor, Unique, DefaultsFor, BuildNames, StepNameSet, TrimmedVersion,
      UniqueName, PubGet, GetPackages;
    var distinct := CheckPlatforms(s.platforms);
    if !distinct {
      return None;
    }
    var targets := CollectTargets(s);
    var artifacts := CollectArtifacts(s.artifacts);
    if artifacts.None? {
      return None;
    }
    var defaults := CollectDefaults(targets);
    var names := BuildNames(targets);
    var first := [];
    ghost var start := names;
    if s.build == [] {
      var name;
      name, names := TakeUniqueName(names, GetPackages());
      first := [Step(name, PubGet())];
    }
    NamesOfOne(start, first);
    assert names == start + StepNameSet(first);
    var pre, post;
    pre, names := NameSteps(names, s.preBuild);
    NamesConcat(start, first, pre);
    post, names := NameSteps(names, s.postBuild);
    r := Some(Generated(
      TrimmedVersion(s.flutterVersion), targets,
      if artifacts.value != defaults && artifacts.value != [] then artifacts else None,
      first + pre, post, EnvPairs(s.env), None, s.runsOn, s.isolation, s.offset));
  }

  lemma NamesOfOne(names: set<string>, steps: seq<Step>)
    requires |steps| <= 1
    ensures names + StepNameSet(steps) == if steps == [] then names else names + {steps[0].name}
  {
  }

  // ── What the joined build keeps apart ───────────────────────────

  /** A command stands between parentheses, apart from them by a blank, or by line breaks
      when a comment or a line break could swallow the closing one. */
  lemma SubshellHolds(command: string)
    ensures
      var gap := if '#' in command || '\n' in command then "\n" else " ";
      Subshell(command) == "(" + gap + command + gap + ")"
  {
  }

  /** One more command is joined by `&&` on a line of its own, so it runs only if all
      before it succeeded. */
  lemma {:induction false} JoinedWith(parts: seq<string>, part: string, separator: string)
    requires parts != []
    ensures Join(parts + [part], separator) == Join(parts, separator) + separator + part
  {
    if |parts| == 1 {
      assert (parts + [part])[1..] == [part];
    } else {
      JoinedWith(parts[1..], part, separator);
      assert (parts + [part])[1..] == parts[1..] + [part];
    }
  }

  lemma SharedWith(commands: seq<string>, command: string)
    requires |commands| >= 2
    ensures JoinShared(commands + [command]) == JoinShared(commands) + " &&\n" + Subshell(Trim(command))
  {
    hide Subshell, Trim, Join;
    assert Subshells(commands + [command]) == Subshells(commands) + [Subshell(Trim(command))];
    JoinedWith(Subshells(commands), Subshell(Trim(command)), " &&\n");
  }

  lemma SharedOfTwo(first: string, second: string)
    ensures JoinShared([first, second]) == Subshell(Trim(first)) + " &&\n" + Subshell(Trim(second))
    ensures JoinShared([first]) == Trim(first)
  {
    hide Subshell, Trim;
    var parts := Subshells([first, second]);
    var last := [Subshell(Trim(second))];
    assert parts[1..] == last && Join(last, " &&\n") == last[0];
    assert Join(parts, " &&\n") == parts[0] + " &&\n" + Join(parts[1..], " &&\n");
  }
}

/** The steps that an exported form has to run. */
module ExportSteps {
  import opened Wrappers
  import opened Text
  import opened Plan
  import opened GeneratedFile
  import opened GeneratedBehaviour

  // ── `expected_behaviour` ────────────────────────────────────────

  /** One more step of the form's plan: Build commands run after the targets, and the Play
      bundle joins its target's build. */
  function Merge(done: seq<StepBehaviour>, step: StepBehaviour): seq<StepBehaviour> {
    if step.phase.Build? && step.platform.None? then done + [StepBehaviour(PostBuild, step.run, None)]
    else if step.phase.Build? && done != [] && done[|done| - 1].phase.Build? && done[|done| - 1].platform == step.platform then
      var last := done[|done| - 1];
      done[..|done| - 1] + [last.(run := last.run + " && " + step.run)]
    else done + [step]
  }

  function MergeAll(done: seq<StepBehaviour>, steps: seq<StepBehaviour>): seq<StepBehaviour>
    decreases |steps|
  {
    if steps == [] then done else MergeAll(Merge(done, steps[0]), steps[1..])
  }

  /** The loop over the form's steps. */
  method MergedSteps(expected: seq<StepBehaviour>) returns (steps: seq<StepBehaviour>)
    ensures steps == MergeAll([], expected)
  {
    steps := [];
    assert expected[0..] == expected;
    for i := 0 to |expected|
      invariant MergeAll(steps, expected[i..]) == MergeAll([], expected)
    {
      var step := expected[i];
      assert expected[i..][0] == step && expected[i..][1..] == expected[i + 1..];
      ghost var was := steps;
      if step.phase.Build? && step.platform.None? {
        steps := steps + [StepBehaviour(PostBuild, step.run, None)];
      } else if step.phase.Build? && |steps| > 0 && steps[|steps| - 1].phase.Build? && steps[|steps| - 1].platform == step.platform {
        var last := steps[|steps| - 1];
        steps := steps[|steps| - 1 := last.(run := last.run + " && " + step.run)];
        assert steps == was[..|was| - 1] + [last.(run := last.run + " && " + step.run)];
      } else {
        steps := steps + [step];
      }
      assert steps == Merge(was, step);
    }
  }

  // ── What merging gives ──────────────────────────────────────────

  lemma {:induction false} MergeConcat(done: seq<StepBehaviour>, a: seq<StepBehaviour>, b: seq<StepBehaviour>)
    ensures MergeAll(done, a + b) == MergeAll(MergeAll(done, a), b)
    decreases |a|
  {
    hide Merge;
    if a == [] {
      assert a + b == b;
    } else {
      MergeConcat(Merge(done, a[0]), a[1..], b);
      assert (a + b)[1..] == a[1..] + b;
    }
  }

  lemma {:induction false} MergeOthers(done: seq<StepBehaviour>, steps: seq<StepBehaviour>)
    requires forall i :: 0 <= i < |steps| ==> !steps[i].phase.Build?
    ensures MergeAll(done, steps) == done + steps
    decreases |steps|
  {
    if steps == [] {
      assert done + steps == done;
    } else {
      MergeOthers(done + [steps[0]], steps[1..]);
      assert done + steps == done + [steps[0]] + steps[1..];
    }
  }

  ghost predicate UserBuilds(steps: seq<StepBehaviour>) {
    forall i :: 0 <= i < |steps| ==> steps[i].phase.Build? && steps[i].platform.None?
  }

  ghost function Moved(steps: seq<StepBehaviour>): (r: seq<StepBehaviour>)
    ensures |r| == |steps| && forall i :: 0 <= i < |r| ==> r[i] == StepBehaviour(PostBuild, steps[i].run, None)
  {
    seq(|steps|, i requires 0 <= i < |steps| => StepBehaviour(PostBuild, steps[i].run, None))
  }

  lemma {:induction false} MergeUserBuilds(done: seq<StepBehaviour>, steps: seq<StepBehaviour>)
    requires UserBuilds(steps)
    ensures MergeAll(done, steps) == done + Moved(steps)
    decreases |steps|
  {
    if steps == [] {
      assert done + Moved(steps) == done;
    } else {
      var first := StepBehaviour(PostBuild, steps[0].run, None);
      MergeUserBuilds(done + [first], steps[1..]);
      assert done + Moved(steps) == done + [first] + Moved(steps[1..]);
    }
  }

  lemma UserBuildsMoved(commands: seq<string>)
    ensures UserBuilds(Runs(Build, UserCommands(commands)))
    ensures Moved(Runs(Build, UserCommands(commands))) == Runs(PostBuild, UserCommands(commands))
  {
    hide Trim;
  }

  /** A platform's builds as one command. */
  function MergedRun(s: Settings, platform: Platform, bundle: bool): string {
    var run := Trim(PlatformCommand(s, platform));
    if BuildsBundle(s, platform, bundle) then run + " && " + Trim(BundleCommand(s)) else run
  }

  function MergedBuilds(s: Settings, platforms: seq<Platform>, bundle: bool): (r: seq<StepBehaviour>)
    ensures |r| == |platforms|
    ensures forall i :: 0 <= i < |r| ==> r[i] == StepBehaviour(Build, MergedRun(s, platforms[i], bundle), Some(platforms[i]))
  {
    seq(|platforms|, i requires 0 <= i < |platforms| => StepBehaviour(Build, MergedRun(s, platforms[i], bundle), Some(platforms[i])))
  }

  /** No build of these platforms was merged last. */
  ghost predicate NotLast(done: seq<StepBehaviour>, platforms: seq<Platform>) {
    done != [] && done[|done| - 1].phase.Build? && done[|done| - 1].platform.Some? ==> done[|done| - 1].platform.value !in platforms
  }

  lemma MergeOne(s: Settings, platform: Platform, bundle: bool, done: seq<StepBehaviour>)
    requires NotLast(done, [platform])
    ensures MergeAll(done, Runs(Build, PlatformBuilds(s, platform, bundle)))
      == done + [StepBehaviour(Build, MergedRun(s, platform, bundle), Some(platform))]
  {
    hide Trim, PlatformCommand, BundleCommand;
    var run := Trim(PlatformCommand(s, platform));
    var first := StepBehaviour(Build, run, Some(platform));
    var steps := Runs(Build, PlatformBuilds(s, platform, bundle));
    assert steps[0] == first && Merge(done, first) == done + [first];
    if BuildsBundle(s, platform, bundle) {
      var more := StepBehaviour(Build, Trim(BundleCommand(s)), Some(platform));
      assert steps == [first, more];
      assert steps[1..] == [more];
      assert Merge(done + [first], more) == done + [first.(run := run + " && " + more.run)];
      assert MergeAll(Merge(done + [first], more), [more][1..]) == Merge(done + [first], more);
      assert MergeAll(done + [first], [more]) == Merge(done + [first], more);
    } else {
      assert steps == [first];
      assert MergeAll(done + [first], steps[1..]) == done + [first];
    }
  }

  lemma {:induction false} MergePlatforms(s: Settings, platforms: seq<Platform>, bundle: bool, done: seq<StepBehaviour>)
    requires NotLast(done, platforms) && forall i, j :: 0 <= i < j < |platforms| ==> platforms[i] != platforms[j]
    ensures MergeAll(done, Runs(Build, AllPlatformBuilds(s, platforms, bundle))) == done + MergedBuilds(s, platforms, bundle)
    decreases |platforms|
  {
    hide Runs, MergeAll, PlatformBuilds, MergedRun, BuildsBundle;
    if platforms == [] {
      NothingMerged(done);
      assert done + MergedBuilds(s, platforms, bundle) == done;
    } else {
      var first, rest := PlatformBuilds(s, platforms[0], bundle), AllPlatformBuilds(s, platforms[1..], bundle);
      RunsConcat(Build, first, rest);
      MergeConcat(done, Runs(Build, first), Runs(Build, rest));
      MergeOne(s, platforms[0], bundle, done);
      var built := StepBehaviour(Build, MergedRun(s, platforms[0], bundle), Some(platforms[0]));
      MergePlatforms(s, platforms[1..], bundle, done + [built]);
      assert done + [built] + MergedBuilds(s, platforms[1..], bundle) == done + MergedBuilds(s, platforms, bundle);
    }
  }

  lemma NothingMerged(done: seq<StepBehaviour>)
    ensures MergeAll(done, Runs(Build, [])) == done
  {
  }

  lemma RunsAreIn(phase: Phase, commands: seq<Command>)
    ensures forall i :: 0 <= i < |commands| ==> Runs(phase, commands)[i].phase == phase
  {
    hide Trim;
  }

  /** The form's steps as the file runs them. */
  lemma MergedForm(s: Settings, pre: seq<Command>, bundle: bool)
    requires forall i, j :: 0 <= i < j < |s.platforms| ==> s.platforms[i] != s.platforms[j]
    ensures MergeAll([],
        Runs(PreBuild, pre) + Runs(Build, AllPlatformBuilds(s, s.platforms, bundle) + UserCommands(s.build))
        + Runs(PostBuild, UserCommands(s.postBuild)))
      == Runs(PreBuild, pre) + MergedBuilds(s, s.platforms, bundle) + (Runs(PostBuild, UserCommands(s.build)) + Runs(PostBuild, UserCommands(s.postBuild)))
  {
    hide Runs, MergeAll, AllPlatformBuilds, UserCommands, MergedRun, MergedBuilds, UserBuilds, Moved;
    var first, last := Runs(PreBuild, pre), Runs(PostBuild, UserCommands(s.postBuild));
    var builds, users := Runs(Build, AllPlatformBuilds(s, s.platforms, bundle)), Runs(Build, UserCommands(s.build));
    RunsConcat(Build, AllPlatformBuilds(s, s.platforms, bundle), UserCommands(s.build));
    RunsAreIn(PreBuild, pre);
    RunsAreIn(PostBuild, UserCommands(s.postBuild));
    UserBuildsMoved(s.build);
    MergeConcat([], first + (builds + users), last);
    MergeConcat([], first, builds + users);
    MergeOthers([], first);
    assert [] + first == first;
    MergeConcat(first, builds, users);
    MergePlatforms(s, s.platforms, bundle, first);
    var done := first + MergedBuilds(s, s.platforms, bundle);
    MergeUserBuilds(done, users);
    MergeOthers(done + Moved(users), last);
    assert done + Moved(users) + last == done + (Moved(users) + last);
  }

  // ── The seam of the Play bundle ─────────────────────────────────

  lemma {:induction false} TrimEndBehind(a: string, b: string)
    requires TrimEnd(b) != []
    ensures TrimEnd(a + b) == a + TrimEnd(b)
    decreases |b|
  {
    hide IsSpace;
    var n := |b| - 1;
    if b != [] && IsSpace(b[n]) {
      TrimEndBehind(a, b[..n]);
      assert (a + b)[..|a + b| - 1] == a + b[..n];
      assert (a + b)[|a + b| - 1] == b[n];
    } else {
      assert b != [];
      assert (a + b)[|a + b| - 1] == b[n];
    }
  }

  /** Blanks inside stay; only those behind the whole are dropped. */
  lemma TrimBehind(a: string, b: string)
    requires a != [] && !IsSpace(a[0]) && b != [] && !IsSpace(b[0])
    ensures Trim(a + b) == a + Trim(b) && Trim(b) != []
  {
    hide IsSpace, TrimEnd;
    assert TrimStart(b) == b && TrimStart(a + b) == a + b;
    TrimEndIs(b);
    assert TrimEnd(b) != [];
    TrimEndBehind(a, b);
  }

  lemma DefaultsStart(s: Settings)
    requires s.commands.android.None?
    ensures
      var command, bundle := PlatformCommand(s, Android), BundleCommand(s);
      command != [] && !IsSpace(command[0]) && bundle != [] && !IsSpace(bundle[0])
  {
    hide Join, BundleArgs;
    var command, bundle := PlatformCommand(s, Android), BundleCommand(s);
    assert command[0] == BaseCommand(Android)[0] == 'f';
    assert bundle[0] == BundleBase()[0] == 'f';
  }

  /** The Android build with its bundle is the merged build exactly when the default
      command does not end in a blank. */
  lemma SeamExact(s: Settings)
    requires s.commands.android.None?
    ensures
      var command, bundle := PlatformCommand(s, Android), BundleCommand(s);
      Trim(command + " && " + bundle) == Trim(command) + " && " + Trim(bundle) <==> Trim(command) == command
  {
    hide PlatformCommand, BundleCommand, Trim, IsSpace;
    var command, bundle := PlatformCommand(s, Android), BundleCommand(s);
    DefaultsStart(s);
    TrimBehind(command + " && ", bundle);
    if Trim(command + " && " + bundle) == Trim(command) + " && " + Trim(bundle) {
      var x, y := command + " && " + Trim(bundle), Trim(command) + " && " + Trim(bundle);
      assert |x| == |y|;
      assert x[..|command|] == command && y[..|command|] == Trim(command);
    }
  }
}

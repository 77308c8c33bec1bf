/** The named steps that migration and export make of user commands. */
module UserSteps {
  import opened Wrappers
  import opened Text
  import opened StepNames
  import opened Plan
  import opened SecretText
  import opened GeneratedFile
  import opened FileChecks
  import opened Lower

  function StepNameSet(steps: seq<Step>): (names: set<string>)
    ensures forall name :: name in names <==> exists i :: 0 <= i < |steps| && steps[i].name == name
  {
    set i | 0 <= i < |steps| :: steps[i].name
  }

  /** One step per command, each named after it and numbered where the name is taken. */
  function StepsFor(names: set<string>, commands: seq<string>): (steps: seq<Step>)
    ensures |steps| == |commands|
    decreases |commands|
  {
    if commands == [] then []
    else
      var run := Trim(commands[0]);
      var name := UniqueName(names, StepName(run));
      [Step(name, run)] + StepsFor(names + {name}, commands[1..])
  }

  lemma NextStep(names: set<string>, commands: seq<string>, i: nat)
    requires i < |commands|
    ensures
      var run := Trim(commands[i]);
      var step := Step(UniqueName(names, StepName(run)), run);
      StepsFor(names, commands[i..]) == [step] + StepsFor(names + {step.name}, commands[i + 1..])
  {
    hide StepName, UniqueName, Trim;
    assert commands[i..][1..] == commands[i + 1..];
  }

  lemma StepEnds(names: set<string>, now: set<string>, commands: seq<string>, steps: seq<Step>)
    ensures [] + StepsFor(names, commands[0..]) == StepsFor(names, commands)
    ensures steps + StepsFor(now, commands[|commands|..]) == steps
  {
    assert commands[0..] == commands;
    assert StepsFor(now, commands[|commands|..]) == [];
  }

  /** The `user_steps` closure. */
  method NameSteps(names: set<string>, commands: seq<string>) returns (steps: seq<Step>, now: set<string>)
    ensures steps == StepsFor(names, commands) && now == names + StepNameSet(steps)
  {
    hide StepName, UniqueName, Trim, StepNameSet, StepsFor;
    steps, now := [], names;
    StepEnds(names, now, commands, []);
    NamesOfNone(names);
    for i := 0 to |commands|
      invariant now == names + StepNameSet(steps)
      invariant steps + StepsFor(now, commands[i..]) == StepsFor(names, commands)
    {
      var run := Trim(commands[i]);
      NextStep(now, commands, i);
      var name;
      name, now := TakeUniqueName(now, StepName(run));
      NamesWith(names, steps, Step(name, run));
      Associative(steps, [Step(name, run)], StepsFor(now, commands[i + 1..]));
      steps := steps + [Step(name, run)];
    }
    StepEnds(names, now, commands, steps);
  }

  lemma NamesOfNone(names: set<string>)
    ensures names + StepNameSet([]) == names
  {
  }

  // ── What they run, and under which names ────────────────────────

  /** Steps with names of their own, none of them taken. */
  ghost predicate OwnNames(names: set<string>, steps: seq<Step>) {
    && (forall i :: 0 <= i < |steps| ==> IsName(steps[i].name) && steps[i].name !in names)
    && (forall i, j :: 0 <= i < j < |steps| ==> steps[i].name != steps[j].name)
  }

  lemma {:induction false} StepsForAre(names: set<string>, commands: seq<string>)
    ensures forall i :: 0 <= i < |commands| ==> StepsFor(names, commands)[i].run == Trim(commands[i])
    ensures OwnNames(names, StepsFor(names, commands))
    decreases |commands|
  {
    hide StepName, UniqueName, Trim, IsName;
    if commands != [] {
      var run := Trim(commands[0]);
      var name := UniqueName(names, StepName(run));
      StepNameIsName(run);
      UniqueIsName(names, StepName(run));
      StepsForAre(names + {name}, commands[1..]);
      assert OwnNames(names + {name}, StepsFor(names + {name}, commands[1..]));
    }
  }

  lemma OwnNamesConcat(names: set<string>, a: seq<Step>, b: seq<Step>)
    requires OwnNames(names, a) && OwnNames(names + StepNameSet(a), b)
    ensures OwnNames(names, a + b)
  {
    hide IsName;
  }

  lemma NamesWith(names: set<string>, steps: seq<Step>, step: Step)
    ensures names + StepNameSet(steps + [step]) == names + StepNameSet(steps) + {step.name}
  {
    var now := steps + [step];
    assert now[|steps|] == step;
    assert forall i :: 0 <= i < |steps| ==> now[i] == steps[i];
  }

  lemma NamesConcat(names: set<string>, a: seq<Step>, b: seq<Step>)
    ensures names + StepNameSet(a) + StepNameSet(b) == names + StepNameSet(a + b)
  {
    var c := a + b;
    assert forall i :: 0 <= i < |a| ==> c[i] == a[i];
    assert forall i :: 0 <= i < |b| ==> c[|a| + i] == b[i];
  }
}

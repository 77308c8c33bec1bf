/** The form inputs that make a target's build command. */
module TargetInputs {
  import opened Wrappers
  import opened Text
  import opened StepNames
  import opened SecretText
  import opened Plan
  import opened ExportSteps

  datatype Inputs = Inputs(command: Option<string>, args: seq<string>)

  /** The build that form inputs make; `play` is only ever set for Android. */
  function Render(platform: Platform, inputs: Inputs, play: bool): string {
    if inputs.command.Some? then inputs.command.value
    else
      var build := WithArgs(BaseCommand(platform), inputs.args);
      if play then build + And() + WithArgs(BundleBase(), BundleArgs(inputs.args)) else build
  }

  function And(): string {
    " && "
  }

  /** `split(" && ").next()`. */
  function FirstPart(s: string): string {
    var found := Find(s, And());
    if found.None? then s else s[..found.value]
  }

  predicate IsQuote(c: char) {
    c == '"' || c == '\'' || c == '\\'
  }

  predicate IsQuoted(s: string) {
    exists i :: 0 <= i < |s| && IsQuote(s[i])
  }

  /** Arguments that, behind the default command, make the build. */
  function ArgsFrom(platform: Platform, build: string, play: bool): Option<seq<string>> {
    var default := Render(platform, Inputs(None, []), play);
    var head := if play then FirstPart(default) else default;
    if !(head <= build) then None
    else
      var rest := if play then FirstPart(build[|head|..]) else build[|head|..];
      if (rest != [] && rest[0] != ' ') || IsQuoted(rest) then None
      else if Render(platform, Inputs(None, Words(rest)), play) != build then None
      else Some(Words(rest))
  }

  /** `target_inputs`: the base's inputs if they make the build, else arguments, else an
      override. */
  function TargetInputsFor(platform: Platform, build: string, play: bool, base: Option<Inputs>): Inputs {
    if base.Some? && Trim(Render(platform, base.value, play)) == build then base.value
    else
      var args := ArgsFrom(platform, build, play);
      if args.Some? then Inputs(None, args.value) else Inputs(Some(build), [])
  }

  /** Whatever inputs are chosen, they make the build. */
  lemma InputsMakeBuild(platform: Platform, build: string, play: bool, base: Option<Inputs>)
    requires IsTrimmed(build)
    ensures Trim(Render(platform, TargetInputsFor(platform, build, play, base), play)) == build
  {
    hide Render, Trim, Words, FirstPart, IsQuoted;
    TrimTrimmed(build);
    Override(platform, build, play);
  }

  lemma Override(platform: Platform, build: string, play: bool)
    ensures Render(platform, Inputs(Some(build), []), play) == build
  {
  }

  // ── Arguments read are plain words ──────────────────────────────

  lemma {:induction false} WordsUnquoted(s: string)
    requires !IsQuoted(s)
    ensures forall i :: 0 <= i < |Words(s)| ==> !IsQuoted(Words(s)[i])
    decreases |s|
  {
    hide IsSpace, IsQuote, Word;
    if s != [] {
      if IsSpace(s[0]) {
        WordsUnquoted(s[1..]);
      } else {
        var word := Word(s);
        assert forall i :: 0 <= i < |word| ==> word[i] == s[i];
        WordsUnquoted(s[|word|..]);
      }
    }
  }

  /** Arguments that are read from a build, not kept, are words that a shell reads as they
      are: none is empty, none has a blank or a quote, and they make the build. */
  lemma ReadArgsAreWords(platform: Platform, build: string, play: bool)
    requires ArgsFrom(platform, build, play).Some?
    ensures
      var args := ArgsFrom(platform, build, play).value;
      && Render(platform, Inputs(None, args), play) == build
      && forall i :: 0 <= i < |args| ==> args[i] != [] && !IsQuoted(args[i]) && forall j :: 0 <= j < |args[i]| ==> !IsSpace(args[i][j])
  {
    hide Render, FirstPart, Words, IsQuoted;
    var default := Render(platform, Inputs(None, []), play);
    var head := if play then FirstPart(default) else default;
    var rest := if play then FirstPart(build[|head|..]) else build[|head|..];
    WordsUnquoted(rest);
  }

  // ── Arguments are recovered ─────────────────────────────────────

  /** An argument that splitting at blanks gives back. */
  predicate PlainArg(arg: string, play: bool) {
    && arg != [] && (forall i :: 0 <= i < |arg| ==> !IsSpace(arg[i]) && !IsQuote(arg[i]))
    && (play ==> arg != "&&")
  }

  ghost predicate PlainArgs(args: seq<string>, play: bool) {
    forall i :: 0 <= i < |args| ==> PlainArg(args[i], play)
  }

  /** The arguments as written behind a command. */
  function ArgsText(args: seq<string>): string {
    if args == [] then [] else [' '] + args[0] + ArgsText(args[1..])
  }

  lemma {:induction false} JoinedArgs(args: seq<string>)
    requires args != []
    ensures [' '] + Join(args, " ") == ArgsText(args)
  {
    if |args| == 1 {
      assert ArgsText(args[1..]) == [];
    } else {
      JoinedArgs(args[1..]);
      var rest := Join(args[1..], " ");
      assert [' '] + (args[0] + " " + rest) == [' '] + args[0] + ([' '] + rest);
    }
  }

  lemma ArgsBehind(command: string, args: seq<string>)
    ensures WithArgs(command, args) == command + ArgsText(args)
  {
    hide Join;
    if args != [] {
      JoinedArgs(args);
      assert command + " " + Join(args, " ") == command + ([' '] + Join(args, " "));
    }
  }

  ghost predicate StartsBlank(s: string) {
    s == [] || s[0] == ' '
  }

  lemma Blank()
    ensures IsSpace(' ')
  {
  }

  lemma {:induction false} WordBefore(word: string, rest: string)
    requires (forall i :: 0 <= i < |word| ==> !IsSpace(word[i])) && StartsBlank(rest)
    ensures Word(word + rest) == word
  {
    hide IsSpace;
    Blank();
    if word == [] {
      assert word + rest == rest;
    } else {
      WordBefore(word[1..], rest);
      assert (word + rest)[1..] == word[1..] + rest;
    }
  }

  lemma WordsBlank(s: string)
    ensures Words([' '] + s) == Words(s)
  {
    hide IsSpace, Word;
    Blank();
    assert ([' '] + s)[1..] == s;
  }

  lemma NoWords()
    ensures Words([]) == []
  {
  }

  lemma WordsFirst(word: string, rest: string)
    requires word != [] && (forall i :: 0 <= i < |word| ==> !IsSpace(word[i])) && StartsBlank(rest)
    ensures Words(word + rest) == [word] + Words(rest)
  {
    hide IsSpace, Word;
    var all := word + rest;
    WordBefore(word, rest);
    assert all[0] == word[0];
    assert all[|Word(all)|..] == rest;
  }

  lemma {:induction false} WordsOfArgs(args: seq<string>, play: bool)
    requires PlainArgs(args, play)
    ensures Words(ArgsText(args)) == args
  {
    hide IsSpace, IsQuote, Words;
    if args == [] {
      NoWords();
    } else {
      WordsOfArgs(args[1..], play);
      var rest := ArgsText(args[1..]);
      assert PlainArg(args[0], play);
      TextStartsBlank(args[1..]);
      WordsFirst(args[0], rest);
      WordsBlank(args[0] + rest);
      assert ArgsText(args) == [' '] + (args[0] + rest);
    }
  }

  /** No ` && ` starts inside the arguments when one follows them. */
  lemma {:induction false} NoAndInArgs(args: seq<string>, tail: string, k: nat)
    requires PlainArgs(args, true) && And() <= tail && k < |ArgsText(args)|
    ensures !OccursAt(ArgsText(args) + tail, And(), k)
  {
    hide IsSpace, IsQuote, OccursAt;
    Blank();
    var word, rest := args[0], ArgsText(args[1..]) + tail;
    assert PlainArg(word, true);
    assert ArgsText(args) + tail == [' '] + word + rest;
    assert rest[0] == ' ';
    if k == 0 {
      FirstIsNoAnd(word, rest);
    } else if k <= |word| {
      InsideWord(word, rest, k);
    } else {
      NoAndInArgs(args[1..], tail, k - |word| - 1);
      OccursBehind([' '] + word, rest, And(), k - |word| - 1);
    }
  }

  lemma FirstIsAnd(word: string, rest: string)
    requires (forall i :: 0 <= i < |word| ==> !IsSpace(word[i])) && rest != [] && rest[0] == ' '
    requires OccursAt([' '] + word + rest, And(), 0)
    ensures word == "&&"
  {
    hide IsSpace;
    Blank();
    var all := [' '] + word + rest;
    assert all[0..4][1] == '&' && all[0..4][2] == '&' && all[0..4][3] == ' ';
    assert all[1] == '&' && all[2] == '&' && all[3] == ' ';
  }

  lemma FirstIsNoAnd(word: string, rest: string)
    requires PlainArg(word, true) && rest != [] && rest[0] == ' '
    ensures !OccursAt([' '] + word + rest, And(), 0)
  {
    hide IsSpace, IsQuote, OccursAt;
    if OccursAt([' '] + word + rest, And(), 0) {
      FirstIsAnd(word, rest);
      assert false;
    }
  }

  lemma InsideWord(word: string, rest: string, k: nat)
    requires (forall i :: 0 <= i < |word| ==> !IsSpace(word[i])) && 1 <= k <= |word|
    ensures !OccursAt([' '] + word + rest, And(), k)
  {
    hide IsSpace;
    Blank();
    var all := [' '] + word + rest;
    assert all[k] == word[k - 1];
    if k + 4 <= |all| {
      assert all[k..k + 4][0] == all[k];
      assert And()[0] == ' ';
    }
  }

  lemma FirstPartIs(a: string, tail: string)
    requires And() <= tail && forall k :: 0 <= k < |a| ==> !OccursAt(a + tail, And(), k)
    ensures FirstPart(a + tail) == a
  {
    hide OccursAt, FindFrom, And;
    assert OccursAt(a + tail, And(), |a|) by {
      OccursBehind(a, tail, And(), 0);
      AtStart(tail, And());
    }
    FindIs(a + tail, And(), 0, |a|);
  }

  lemma AtStart(s: string, needle: string)
    requires needle <= s
    ensures OccursAt(s, needle, 0)
  {
  }

  lemma CommandHasNoAnd(tail: string, k: nat)
    requires k < |BaseCommand(Android)|
    ensures !OccursAt(BaseCommand(Android) + tail, And(), k)
  {
    var base := BaseCommand(Android);
    var all := base + tail;
    if k + 4 <= |all| {
      assert all[k..k + 4][0] == base[k];
      if k + 1 < |base| {
        assert all[k..k + 4][1] == base[k + 1];
      }
    }
  }

  lemma {:induction false} ArgsUnquoted(args: seq<string>, play: bool)
    requires PlainArgs(args, play)
    ensures !IsQuoted(ArgsText(args))
  {
    hide IsSpace;
    if args != [] {
      ArgsUnquoted(args[1..], play);
      assert PlainArg(args[0], play);
      var all, rest := ArgsText(args), ArgsText(args[1..]);
      forall i | 0 <= i < |all|
        ensures !IsQuote(all[i])
      {
        if i > |args[0]| {
          assert all[i] == rest[i - |args[0]| - 1];
        }
      }
    }
  }

  /** Plain arguments of a default command are read back from the command alone. */
  lemma ArgsRecovered(platform: Platform, args: seq<string>, play: bool)
    requires PlainArgs(args, play) && (play ==> platform.Android?)
    ensures TargetInputsFor(platform, Render(platform, Inputs(None, args), play), play, None) == Inputs(None, args)
  {
    hide Words, BaseCommand, BundleBase, BundleArgs, ArgsText, FirstPart, IsQuoted, WithArgs, And;
    var base := BaseCommand(platform);
    var text := ArgsText(args);
    WordsOfArgs(args, play);
    ArgsUnquoted(args, play);
    ArgsBehind(base, args);
    ArgsBehind(base, []);
    NoArgsText();
    TextStartsBlank(args);
    if play {
      var tail := And() + WithArgs(BundleBase(), BundleArgs(args));
      HeadOfDefault();
      RestOfBuild(args, tail);
      var build := Render(platform, Inputs(None, args), play);
      assert build == base + (text + tail);
      assert build[|base|..] == text + tail;
    } else {
      var build := base + text;
      assert build[|base|..] == text;
      assert base + [] == base;
    }
  }

  lemma NoArgsText()
    ensures ArgsText([]) == []
  {
  }

  lemma TextStartsBlank(args: seq<string>)
    ensures ArgsText(args) == [] || ArgsText(args)[0] == ' '
  {
  }

  lemma HeadOfDefault()
    ensures FirstPart(Render(Android, Inputs(None, []), true)) == BaseCommand(Android)
  {
    hide BaseCommand, BundleBase, BundleArgs, FirstPart, OccursAt, And;
    var base := BaseCommand(Android);
    var tail := And() + WithArgs(BundleBase(), BundleArgs([]));
    forall k | 0 <= k < |base|
      ensures !OccursAt(base + tail, And(), k)
    {
      CommandHasNoAnd(tail, k);
    }
    FirstPartIs(base, tail);
    assert Render(Android, Inputs(None, []), true) == base + tail;
  }

  lemma RestOfBuild(args: seq<string>, tail: string)
    requires PlainArgs(args, true) && And() <= tail
    ensures FirstPart(ArgsText(args) + tail) == ArgsText(args)
  {
    hide OccursAt, And, ArgsText, FirstPart;
    forall k | 0 <= k < |ArgsText(args)|
      ensures !OccursAt(ArgsText(args) + tail, And(), k)
    {
      NoAndInArgs(args, tail, k);
    }
    FirstPartIs(ArgsText(args), tail);
  }
}

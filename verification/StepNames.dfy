/** Step names derived from commands, each used once. */
module StepNames {
  import opened Wrappers
  import opened Text

  // ── Numbers ─────────────────────────────────────────────────────

  function Digits(n: nat): (s: string)
    ensures s != []
  {
    if n < 10 then [('0' as int + n) as char] else Digits(n / 10) + [('0' as int + n % 10) as char]
  }

  function FromDigits(s: string): int {
    if s == [] then 0 else FromDigits(s[..|s| - 1]) * 10 + (s[|s| - 1] as int - '0' as int)
  }

  lemma {:induction false} DigitsRead(n: nat)
    ensures FromDigits(Digits(n)) == n
  {
    if n < 10 {
      assert Digits(n)[..0] == "";
    } else {
      DigitsRead(n / 10);
      var head := Digits(n / 10);
      assert Digits(n)[..|Digits(n)| - 1] == head;
    }
  }

  // ── Unique names ────────────────────────────────────────────────

  /** The names `unique_name` tries: the base, then `base (2)`, `base (3)`, ... */
  function Attempt(base: string, k: nat): string {
    if k <= 1 then base else base + " (" + Digits(k) + ")"
  }

  lemma AttemptsDiffer(base: string, j: nat, k: nat)
    requires 1 <= j < k
    ensures Attempt(base, j) != Attempt(base, k)
  {
    var name := Attempt(base, k);
    var digits := name[|base| + 2..|name| - 1];
    assert digits == Digits(k);
    if j > 1 {
      var other := Attempt(base, j);
      assert other[|base| + 2..|other| - 1] == Digits(j);
      DigitsRead(j);
      DigitsRead(k);
    }
  }

  /** Pigeonhole: a finite set cannot hold more attempts than it has names. */
  lemma {:induction false} AttemptsFit(names: set<string>, base: string, k: nat)
    requires forall j :: 1 <= j < k ==> Attempt(base, j) in names
    ensures k == 0 || k - 1 <= |names|
    decreases k
  {
    hide Attempt;
    if k > 1 {
      var last := Attempt(base, k - 1);
      forall j | 1 <= j < k - 1
        ensures Attempt(base, j) in names - {last}
      {
        AttemptsDiffer(base, j, k - 1);
      }
      AttemptsFit(names - {last}, base, k - 1);
      assert |names - {last}| == |names| - 1;
    }
  }

  /** The first attempt from `k` on that is not taken. */
  function FreeFrom(names: set<string>, base: string, k: nat): (name: string)
    requires k >= 1 && forall j :: 1 <= j < k ==> Attempt(base, j) in names
    ensures name !in names
    decreases |names| + 1 - k
  {
    AttemptsFit(names, base, k);
    if Attempt(base, k) !in names then Attempt(base, k) else FreeFrom(names, base, k + 1)
  }

  function UniqueName(names: set<string>, base: string): (name: string)
    ensures name !in names
    ensures base !in names ==> name == base
  {
    FreeFrom(names, base, 1)
  }

  /** `unique_name`: terminates, and takes the first free attempt. */
  method TakeUniqueName(names: set<string>, base: string) returns (name: string, now: set<string>)
    ensures name == UniqueName(names, base) && name !in names
    ensures now == names + {name}
  {
    name := base;
    var counter := 2;
    while name in names
      invariant counter >= 2 && name == Attempt(base, counter - 1)
      invariant forall j :: 1 <= j < counter - 1 ==> Attempt(base, j) in names
      invariant FreeFrom(names, base, counter - 1) == UniqueName(names, base)
      decreases |names| + 2 - counter
    {
      AttemptsFit(names, base, counter - 1);
      name := base + " (" + Digits(counter) + ")";
      counter := counter + 1;
    }
    now := names + {name};
  }

  // ── Names from commands ─────────────────────────────────────────

  const DERIVED_NAME_LENGTH: nat := 60

  function Word(s: string): (w: string)
    ensures w <= s && (s != [] && !IsSpace(s[0]) ==> w != [])
    ensures forall i :: 0 <= i < |w| ==> !IsSpace(w[i])
  {
    if s == [] || IsSpace(s[0]) then [] else [s[0]] + Word(s[1..])
  }

  /** `split_whitespace`. */
  function Words(s: string): (words: seq<string>)
    ensures forall i :: 0 <= i < |words| ==> words[i] != [] && forall j :: 0 <= j < |words[i]| ==> !IsSpace(words[i][j])
    decreases |s|
  {
    if s == [] then []
    else if IsSpace(s[0]) then Words(s[1..])
    else [Word(s)] + Words(s[|Word(s)|..])
  }

  function Line(s: string): string {
    if s == [] || s[0] == '\n' then [] else [s[0]] + Line(s[1..])
  }

  /** `lines().next()`. */
  function FirstLine(s: string): string {
    var line := Line(s);
    if line != [] && line[|line| - 1] == '\r' then line[..|line| - 1] else line
  }

  /** `lines().nth(1).is_some()`. */
  predicate HasSecondLine(s: string) {
    |Line(s)| + 1 < |s|
  }

  function Collapsed(run: string): string {
    Join(Words(FirstLine(run)), " ")
  }

  /** The names given to well-known commands. */
  function KnownName(run: string): Option<string> {
    if run == "flutter pub get" then Some("Get packages")
    else if run == "flutter analyze" then Some("Analyze")
    else if run == "flutter test" then Some("Run tests")
    else None
  }

  function Shortened(collapsed: string, more: bool): string {
    if |collapsed| > DERIVED_NAME_LENGTH then collapsed[..DERIVED_NAME_LENGTH] + "..."
    else if more then collapsed + "..."
    else if collapsed == [] then "Step"
    else collapsed
  }

  /** `step_name`. */
  function StepName(run: string): string {
    var known := KnownName(run);
    if known.Some? then known.value else Shortened(Collapsed(run), HasSecondLine(run))
  }

  predicate IsName(name: string) {
    name != [] && IsTrimmed(name)
  }

  lemma {:induction false} JoinedIsTrimmed(words: seq<string>)
    requires forall i :: 0 <= i < |words| ==> words[i] != [] && forall j :: 0 <= j < |words[i]| ==> !IsSpace(words[i][j])
    ensures IsTrimmed(Join(words, " "))
    ensures words != [] ==> Join(words, " ") != [] && Join(words, " ")[0] == words[0][0]
  {
    hide IsSpace;
    if |words| > 1 {
      JoinedIsTrimmed(words[1..]);
      var rest := Join(words[1..], " ");
      var all := words[0] + " " + rest;
      assert all[|all| - 1] == rest[|rest| - 1];
    }
  }

  lemma ShortenedIsName(collapsed: string, more: bool)
    requires IsTrimmed(collapsed)
    ensures IsName(Shortened(collapsed, more))
  {
    var name := Shortened(collapsed, more);
    assert !IsSpace('.') && !IsSpace('S') && !IsSpace('p');
    if collapsed != [] && (more || |collapsed| > DERIVED_NAME_LENGTH) {
      assert name[0] == collapsed[0];
    }
  }

  /** A derived name is never empty and has no blanks around it. */
  lemma StepNameIsName(run: string)
    ensures IsName(StepName(run))
  {
    hide Shortened, Words, Join;
    if KnownName(run).None? {
      JoinedIsTrimmed(Words(FirstLine(run)));
      ShortenedIsName(Collapsed(run), HasSecondLine(run));
    }
  }

  lemma AttemptIsName(base: string, k: nat)
    requires IsName(base)
    ensures IsName(Attempt(base, k))
  {
    hide IsSpace;
    if k > 1 {
      assert Attempt(base, k)[0] == base[0];
      assert !IsSpace(')') by {
        Paren();
      }
    }
  }

  lemma Paren()
    ensures !IsSpace(')')
  {
  }

  lemma {:induction false} FreeIsName(names: set<string>, base: string, k: nat)
    requires k >= 1 && forall j :: 1 <= j < k ==> Attempt(base, j) in names
    requires IsName(base)
    ensures IsName(FreeFrom(names, base, k))
    decreases |names| + 1 - k
  {
    hide Attempt, IsName;
    AttemptsFit(names, base, k);
    AttemptIsName(base, k);
    if Attempt(base, k) in names {
      FreeIsName(names, base, k + 1);
    }
  }

  lemma UniqueIsName(names: set<string>, base: string)
    requires IsName(base)
    ensures IsName(UniqueName(names, base))
  {
    FreeIsName(names, base, 1);
  }

  // ── What a derived name says ────────────────────────────────────

  /** The characters of a text that are not blank, in order. */
  function NonBlanks(s: string): string {
    if s == [] then [] else (if IsSpace(s[0]) then [] else [s[0]]) + NonBlanks(s[1..])
  }

  lemma {:induction false} NonBlanksConcat(a: string, b: string)
    ensures NonBlanks(a + b) == NonBlanks(a) + NonBlanks(b)
  {
    hide IsSpace;
    if a == [] {
      assert a + b == b;
    } else {
      NonBlanksConcat(a[1..], b);
      assert (a + b)[1..] == a[1..] + b;
    }
  }

  lemma {:induction false} NonBlanksOfWord(word: string)
    requires forall i :: 0 <= i < |word| ==> !IsSpace(word[i])
    ensures NonBlanks(word) == word
  {
    hide IsSpace;
    if word != [] {
      NonBlanksOfWord(word[1..]);
      assert word == [word[0]] + word[1..];
    }
  }

  function Glued(words: seq<string>): string {
    if words == [] then [] else words[0] + Glued(words[1..])
  }

  /** Splitting at blanks loses nothing but blanks. */
  lemma {:induction false} WordsHoldAll(s: string)
    ensures Glued(Words(s)) == NonBlanks(s)
    decreases |s|
  {
    hide IsSpace, Word;
    if s != [] {
      if IsSpace(s[0]) {
        WordsHoldAll(s[1..]);
      } else {
        var word, rest := Word(s), s[|Word(s)|..];
        WordsHoldAll(rest);
        NonBlanksOfWord(word);
        NonBlanksConcat(word, rest);
        assert s == word + rest;
        assert Words(s)[1..] == Words(rest);
      }
    }
  }

  lemma {:induction false} NonBlanksOfJoined(words: seq<string>)
    requires forall i :: 0 <= i < |words| ==> forall j :: 0 <= j < |words[i]| ==> !IsSpace(words[i][j])
    ensures NonBlanks(Join(words, " ")) == Glued(words)
  {
    hide IsSpace;
    if words != [] {
      NonBlanksOfWord(words[0]);
      if |words| > 1 {
        NonBlanksOfJoined(words[1..]);
        var rest := Join(words[1..], " ");
        NonBlanksConcat(words[0] + " ", rest);
        NonBlanksConcat(words[0], " ");
        assert NonBlanks(" ") == [] by {
          OneBlankIsNothing();
        }
      } else {
        assert Glued(words[1..]) == [];
        assert words[0] + [] == words[0];
      }
    }
  }

  lemma OneBlankIsNothing()
    ensures NonBlanks(" ") == []
  {
    assert IsSpace(' ');
    assert NonBlanks(" "[1..]) == [];
  }

  /** The first line ends before the first line break. */
  lemma {:induction false} LineIs(s: string)
    ensures Line(s) <= s && '\n' !in Line(s) && (|Line(s)| < |s| ==> s[|Line(s)|] == '\n')
  {
    if s != [] && s[0] != '\n' {
      LineIs(s[1..]);
      assert s == [s[0]] + s[1..];
    }
  }

  /** The first line's words, one blank apart. */
  lemma CollapsedIs(run: string)
    ensures NonBlanks(Collapsed(run)) == NonBlanks(FirstLine(run)) && IsTrimmed(Collapsed(run))
  {
    hide Words, Join, FirstLine, NonBlanks, IsSpace;
    WordsHoldAll(FirstLine(run));
    NonBlanksOfJoined(Words(FirstLine(run)));
    JoinedIsTrimmed(Words(FirstLine(run)));
  }

  /** A derived name is the first line's words; cut after sixty characters, and marked with
      three dots exactly when something was left off. */
  lemma StepNameTells(run: string)
    requires KnownName(run).None?
    ensures
      var name, line := StepName(run), Collapsed(run);
      var cut := |line| > DERIVED_NAME_LENGTH;
      && (!cut && !HasSecondLine(run) && line != [] ==> name == line)
      && (cut || HasSecondLine(run) ==> name[|name| - 3..] == "..." && name[..|name| - 3] <= line)
      && (cut ==> |name| == DERIVED_NAME_LENGTH + 3)
      && (!cut && HasSecondLine(run) ==> name == line + "...")
      && (line == [] && !HasSecondLine(run) ==> name == "Step")
  {
    hide Collapsed, HasSecondLine;
  }

  /** The three known commands and their names. */
  lemma KnownNames()
    ensures StepName("flutter pub get") == "Get packages" && StepName("flutter analyze") == "Analyze" && StepName("flutter test") == "Run tests"
  {
    hide Shortened, Collapsed, HasSecondLine;
    assert "flutter analyze"[8] == 'a' && "flutter test"[8] == 't' && "flutter pub get"[8] == 'p';
  }
}

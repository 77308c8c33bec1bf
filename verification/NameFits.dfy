/** Which derived step names version 2 accepts. */
module NameFits {
  import opened Wrappers
  import opened Text
  import opened StepNames
  import opened Plan
  import opened GeneratedFile
  import opened FileChecks
  import opened UserSteps

  predicate IsPrintable(c: char) {
    ' ' <= c <= '~'
  }

  ghost predicate Printable(s: string) {
    forall i :: 0 <= i < |s| ==> IsPrintable(s[i])
  }

  /** Every character is ASCII and printable, or a blank. */
  ghost predicate PrintableOrBlank(s: string) {
    forall i :: 0 <= i < |s| ==> IsPrintable(s[i]) || IsSpace(s[i])
  }

  lemma {:induction false} WordPrintable(s: string)
    requires PrintableOrBlank(s)
    ensures Printable(Word(s))
  {
    hide IsSpace, IsPrintable;
    if s != [] && !IsSpace(s[0]) {
      WordPrintable(s[1..]);
    }
  }

  lemma {:induction false} WordsPrintable(s: string)
    requires PrintableOrBlank(s)
    ensures forall i :: 0 <= i < |Words(s)| ==> Printable(Words(s)[i])
    decreases |s|
  {
    hide IsSpace, IsPrintable, Word;
    if s != [] {
      if IsSpace(s[0]) {
        WordsPrintable(s[1..]);
      } else {
        WordPrintable(s);
        WordsPrintable(s[|Word(s)|..]);
      }
    }
  }

  lemma {:induction false} JoinPrintable(words: seq<string>)
    requires forall i :: 0 <= i < |words| ==> Printable(words[i])
    ensures Printable(Join(words, " "))
  {
    if |words| > 1 {
      JoinPrintable(words[1..]);
      assert Printable(words[0]);
    }
  }

  lemma ShortenedPrintable(collapsed: string, more: bool)
    requires Printable(collapsed)
    ensures Printable(Shortened(collapsed, more)) && |Shortened(collapsed, more)| <= DERIVED_NAME_LENGTH + 3
  {
  }

  lemma KnownPrintable(run: string)
    requires KnownName(run).Some?
    ensures Printable(KnownName(run).value) && |KnownName(run).value| <= DERIVED_NAME_LENGTH + 3
  {
  }

  lemma DerivedPrintable(run: string)
    requires PrintableOrBlank(FirstLine(run))
    ensures Printable(StepName(run)) && |StepName(run)| <= DERIVED_NAME_LENGTH + 3
  {
    hide Words, Join, Shortened, KnownName, FirstLine, Printable;
    if KnownName(run).Some? {
      KnownPrintable(run);
    } else {
      WordsPrintable(FirstLine(run));
      JoinPrintable(Words(FirstLine(run)));
      ShortenedPrintable(Collapsed(run), HasSecondLine(run));
    }
  }

  lemma {:induction false} DigitsPrintable(n: nat)
    ensures Printable(Digits(n)) && |Digits(n)| <= 1 + n / 10
  {
    if n >= 10 {
      DigitsPrintable(n / 10);
      assert 1 + n / 10 / 10 + 1 <= 1 + n / 10;
    }
  }

  lemma AttemptPrintable(base: string, k: nat)
    requires Printable(base)
    ensures Printable(Attempt(base, k)) && |Attempt(base, k)| <= |base| + 4 + k / 10
  {
    hide Digits;
    DigitsPrintable(k);
  }

  /** The number in a unique name is at most one more than the names taken. */
  lemma {:induction false} FreePrintable(names: set<string>, base: string, k: nat)
    requires k >= 1 && forall j :: 1 <= j < k ==> Attempt(base, j) in names
    requires Printable(base)
    ensures Printable(FreeFrom(names, base, k)) && |FreeFrom(names, base, k)| <= |base| + 4 + (|names| + 1) / 10
    decreases |names| + 1 - k
  {
    hide Attempt, Printable;
    AttemptsFit(names, base, k);
    AttemptPrintable(base, k);
    if Attempt(base, k) in names {
      FreePrintable(names, base, k + 1);
    }
  }

  lemma {:induction false} PrintableSize(s: string)
    requires Printable(s)
    ensures Size(s) == |s| && forall i :: 0 <= i < |s| ==> !IsControl(s[i])
  {
    if s != [] {
      PrintableSize(s[1..]);
      assert EncodeChar(s[0]) == [s[0] as int as byte];
      assert s == [s[0]] + s[1..];
    }
  }

  ghost predicate NamesFit(steps: seq<Step>) {
    forall i :: 0 <= i < |steps| ==> StepNameFits(steps[i].name)
  }

  lemma BaseFits(names: set<string>, base: string)
    requires Printable(base) && |base| <= DERIVED_NAME_LENGTH + 3 && IsName(base) && |names| <= 250
    ensures StepNameFits(UniqueName(names, base))
  {
    hide FreeFrom, Printable, IsSpace, Utf8, IsControl, Trim;
    FreePrintable(names, base, 1);
    UniqueIsName(names, base);
    var name := UniqueName(names, base);
    TrimTrimmed(name);
    PrintableSize(name);
  }

  lemma DerivedNameFits(names: set<string>, run: string)
    requires PrintableOrBlank(FirstLine(run)) && |names| <= 250
    ensures StepNameFits(UniqueName(names, StepName(run)))
  {
    hide StepName, UniqueName, Printable, FirstLine, StepNameFits, IsName;
    DerivedPrintable(run);
    StepNameIsName(run);
    BaseFits(names, StepName(run));
  }

  /** Commands whose first line is printable ASCII always get names that fit. */
  lemma {:induction false} PrintableNamesFit(names: set<string>, commands: seq<string>)
    requires forall i :: 0 <= i < |commands| ==> PrintableOrBlank(FirstLine(Trim(commands[i])))
    requires |names| + |commands| <= 250
    ensures NamesFit(StepsFor(names, commands))
    decreases |commands|
  {
    hide StepName, UniqueName, Trim, PrintableOrBlank, FirstLine, StepNameFits;
    if commands != [] {
      var run := Trim(commands[0]);
      var name := UniqueName(names, StepName(run));
      DerivedNameFits(names, run);
      PrintableNamesFit(names + {name}, commands[1..]);
    }
  }

  // ── A name that does not fit ────────────────────────────────────

  lemma {:induction false} WholeWord(s: string)
    requires forall i :: 0 <= i < |s| ==> !IsSpace(s[i])
    ensures Word(s) == s
  {
    hide IsSpace;
    if s != [] {
      WholeWord(s[1..]);
      assert s == [s[0]] + s[1..];
    }
  }

  lemma OneWord(s: string)
    requires s != [] && forall i :: 0 <= i < |s| ==> !IsSpace(s[i])
    ensures Words(s) == [s]
  {
    hide IsSpace, Word;
    WholeWord(s);
    assert s[|Word(s)|..] == [];
    assert Words(s[|Word(s)|..]) == [];
  }

  lemma {:induction false} OneLine(s: string)
    requires forall i :: 0 <= i < |s| ==> s[i] != '\n'
    ensures Line(s) == s
  {
    if s != [] {
      OneLine(s[1..]);
      assert s == [s[0]] + s[1..];
    }
  }

  function Euros(n: nat): (s: string)
    ensures |s| == n && forall i :: 0 <= i < n ==> s[i] == '\U{20AC}'
  {
    seq(n, i => '\U{20AC}')
  }

  lemma {:induction false} EurosSize(n: nat)
    ensures Size(Euros(n)) == 3 * n
  {
    if n > 0 {
      EurosSize(n - 1);
      assert Euros(n)[1..] == Euros(n - 1);
      assert |EncodeChar('\U{20AC}')| == 3;
    }
  }

  /** Names are cut by characters but limited in bytes: sixty three-byte characters make a
      name that the generated file's own validation refuses. */
  lemma LongDerivedName()
    ensures !IsBlank(Euros(60)) && StepName(Euros(60)) == Euros(60) && !StepNameFits(StepName(Euros(60)))
  {
    hide Words, Word, Line, Utf8, IsControl;
    var s := Euros(60);
    NotKnown(s);
    assert !IsSpace(s[0]);
    OneLine(s);
    OneWord(s);
    EurosSize(60);
    TrimTrimmed(s);
  }

  lemma NotKnown(s: string)
    requires s != [] && s[0] == '\U{20AC}'
    ensures KnownName(s).None?
  {
  }

  // ── Exactly which derived names fit ─────────────────────────────

  ghost predicate NoControl(s: string) {
    forall i :: 0 <= i < |s| ==> !IsControl(s[i])
  }

  function Cut(s: string): string {
    if |s| > DERIVED_NAME_LENGTH then s[..DERIVED_NAME_LENGTH] else s
  }

  lemma ShortenedControl(collapsed: string, more: bool)
    ensures NoControl(Shortened(collapsed, more)) <==> NoControl(Cut(collapsed))
  {
    hide IsControl;
    assert !IsControl('.') && NoControl("Step") by {
      PlainMarks();
    }
    var name, kept := Shortened(collapsed, more), Cut(collapsed);
    assert kept != [] ==> kept <= name;
    forall i | 0 <= i < |kept| && NoControl(name)
      ensures !IsControl(kept[i])
    {
      assert name[i] == kept[i];
    }
  }

  lemma PlainMarks()
    ensures !IsControl('.') && NoControl("Step")
  {
  }

  lemma NameFitsWhen(name: string)
    requires IsName(name)
    ensures StepNameFits(name) <==> Size(name) <= 100 && NoControl(name)
  {
    hide Trim, IsTrimmed, Size, IsControl;
    TrimTrimmed(name);
  }

  lemma KnownFits(run: string)
    requires KnownName(run).Some?
    ensures StepNameFits(StepName(run))
  {
    hide KnownName, Printable, Utf8, IsControl, StepNameFits;
    KnownPrintable(run);
    PrintableSize(StepName(run));
    StepNameIsName(run);
    NameFitsWhen(StepName(run));
  }

  /** A derived name is refused exactly when it is over a hundred bytes, or one of the first
      sixty characters of the command's words is a control character. */
  lemma DerivedNameExact(run: string)
    ensures StepNameFits(StepName(run)) <==> KnownName(run).Some? || (Size(StepName(run)) <= 100 && NoControl(Cut(Collapsed(run))))
  {
    hide KnownName, Collapsed, HasSecondLine, Shortened, Size, NoControl, Cut, StepNameFits;
    if KnownName(run).Some? {
      KnownFits(run);
    } else {
      StepNameIsName(run);
      NameFitsWhen(StepName(run));
      ShortenedControl(Collapsed(run), HasSecondLine(run));
    }
  }
}

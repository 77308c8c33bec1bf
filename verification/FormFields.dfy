/** The editor's form: settings as the text of its fields, and back. */
module FormFields {
  import opened Wrappers
  import opened Text
  import opened StepNames
  import opened Plan
  import opened Labels
  import opened Lower
  import opened GeneratedFile
  import opened Export
  import opened Import
  import Triggers

  // ── A list in one field ─────────────────────────────────────────

  /** `parseMultiline` and `parseCsv`: the parts, trimmed, without empty ones. */
  function ParseList(raw: string, separator: char): seq<string> {
    NonEmpty(TrimAll(Split(raw, separator)))
  }

  /** A text that a list field gives back as one part. */
  predicate FieldText(text: string, separator: char) {
    text != [] && IsTrimmed(text) && separator !in text
  }

  ghost predicate FieldTexts(texts: seq<string>, separator: char) {
    forall i :: 0 <= i < |texts| ==> FieldText(texts[i], separator)
  }

  lemma TrimmedPart(text: string, c: char)
    requires c !in text
    ensures c !in Trim(text) && IsTrimmed(Trim(text))
  {
    hide Trim, IsTrimmed;
    TrimTrimmed(text);
    var lead := TrimLead(text);
    assert Trim(text) == text[lead..lead + |Trim(text)|];
  }

  /** Whatever the field holds, its parts are such texts. */
  lemma PartsAreTexts(raw: string, separator: char)
    ensures FieldTexts(ParseList(raw, separator), separator)
  {
    hide Trim, IsTrimmed, Split, NonEmpty;
    var parts := Split(raw, separator);
    var r := ParseList(raw, separator);
    forall i | 0 <= i < |r|
      ensures FieldText(r[i], separator)
    {
      assert r[i] in TrimAll(parts);
      var j :| 0 <= j < |parts| && r[i] == TrimAll(parts)[j];
      TrimmedPart(parts[j], separator);
    }
  }

  lemma Unpadded(pad: string, text: string)
    requires pad in {"", " "} && IsTrimmed(text) && text != []
    ensures Trim(pad + text) == text
  {
    hide TrimEnd, IsSpace, IsTrimmed;
    SpaceIsBlank();
    TrimTrimmed(text);
    assert TrimStart(text) == text by {
      Starts(text);
    }
    if pad == " " {
      assert (pad + text)[1..] == text;
    } else {
      assert pad + text == text;
    }
  }

  lemma SpaceIsBlank()
    ensures IsSpace(' ')
  {
  }

  lemma Starts(text: string)
    requires IsTrimmed(text)
    ensures TrimStart(text) == text
  {
    hide IsSpace;
  }

  lemma SplitFirst(text: string, rest: string, c: char)
    requires c !in text
    ensures Split(text + [c] + rest, c) == [text] + Split(rest, c)
  {
    hide Split;
    SplitNothing(text, c);
    SplitConcat(text, rest, c);
  }

  lemma TrimAllFirst(text: string, rest: seq<string>)
    ensures TrimAll([text] + rest) == [Trim(text)] + TrimAll(rest)
  {
    hide Trim;
  }

  /** The parts of joined texts are those texts, however far apart they are written. */
  lemma {:induction false} JoinedParts(texts: seq<string>, c: char, pad: string, lead: string)
    requires texts != [] && FieldTexts(texts, c) && c != ' ' && pad in {"", " "} && lead in {"", pad}
    ensures TrimAll(Split(lead + Join(texts, [c] + pad), c)) == texts
  {
    hide Split, Trim, IsTrimmed, TrimAll;
    assert FieldText(texts[0], c);
    var first := lead + texts[0];
    Unpadded(lead, texts[0]);
    if |texts| == 1 {
      SplitNothing(first, c);
      TrimAllFirst(first, []);
      assert TrimAll([]) == [] && [first] == [first] + [];
    } else {
      var rest := pad + Join(texts[1..], [c] + pad);
      JoinedParts(texts[1..], c, pad, pad);
      assert lead + Join(texts, [c] + pad) == first + [c] + rest;
      SplitFirst(first, rest, c);
      TrimAllFirst(first, Split(rest, c));
      assert texts == [texts[0]] + texts[1..];
    }
  }

  /** A list comes back from its field exactly when every text is one that a field holds. */
  lemma ListComesBack(texts: seq<string>, c: char, pad: string)
    requires c != ' ' && pad in {"", " "}
    ensures ParseList(Join(texts, [c] + pad), c) == texts <==> FieldTexts(texts, c)
  {
    hide Split, Trim, IsTrimmed, NonEmpty, Join, TrimAll;
    PartsAreTexts(Join(texts, [c] + pad), c);
    if FieldTexts(texts, c) {
      if texts == [] {
        NothingComesBack(c, pad);
      } else {
        JoinedParts(texts, c, pad, "");
        assert "" + Join(texts, [c] + pad) == Join(texts, [c] + pad);
        assert forall i :: 0 <= i < |texts| ==> texts[i] != [] by {
          assert forall i :: 0 <= i < |texts| ==> FieldText(texts[i], c);
        }
        NonEmptyKept(texts);
      }
    }
  }

  lemma NothingComesBack(c: char, pad: string)
    ensures ParseList(Join([], [c] + pad), c) == []
  {
    var one: seq<string> := [""];
    assert TrimAll(one) == one && one[..0] == [];
  }

  // ── Env, one variable a line ────────────────────────────────────

  function EnvLine(entry: EnvVar): string {
    entry.key + "=" + entry.value
  }

  function EnvLines(env: seq<EnvVar>): (lines: seq<string>)
    ensures |lines| == |env| && forall i :: 0 <= i < |env| ==> lines[i] == EnvLine(env[i])
  {
    seq(|env|, i requires 0 <= i < |env| => EnvLine(env[i]))
  }

  /** One line of `parseEnvVars`. */
  function ParseEnvVar(line: string): EnvVar {
    var eq := Find(line, "=");
    if eq.None? || eq.value == 0 then EnvVar(Trim(line), "")
    else EnvVar(Trim(line[..eq.value]), Trim(line[eq.value + 1..]))
  }

  /** `parseEnvVars`. */
  function ParseEnvVars(raw: string): (env: seq<EnvVar>) {
    var lines := ParseList(raw, '\n');
    seq(|lines|, i requires 0 <= i < |lines| => ParseEnvVar(lines[i]))
  }

  /** A variable that the field gives back. */
  predicate EnvField(entry: EnvVar) {
    && FieldText(entry.key, '\n') && '=' !in entry.key
    && '\n' !in entry.value && IsTrimmed(entry.value)
  }

  ghost predicate EnvFields(env: seq<EnvVar>) {
    forall i :: 0 <= i < |env| ==> EnvField(env[i])
  }

  lemma EqualsIsNoSpace()
    ensures !IsSpace('=')
  {
  }

  lemma LineIsText(entry: EnvVar)
    requires FieldText(entry.key, '\n') && '\n' !in entry.value && IsTrimmed(entry.value)
    ensures FieldText(EnvLine(entry), '\n')
  {
    hide IsSpace;
    EqualsIsNoSpace();
    var line := EnvLine(entry);
    assert line[0] == entry.key[0];
    assert line[|line| - 1] == if entry.value == [] then '=' else entry.value[|entry.value| - 1];
  }

  lemma FirstEquals(key: string, value: string)
    requires '=' !in key
    ensures Find(key + "=" + value, "=") == Some(|key|)
  {
    hide FindFrom;
    var line := key + "=" + value;
    assert line[|key|..|key| + 1] == "=";
    assert OccursAt(line, "=", |key|);
    forall k | 0 <= k < |key|
      ensures !OccursAt(line, "=", k)
    {
      assert line[k..k + 1] == [key[k]];
    }
  }

  lemma EarlierEquals(key: string, value: string)
    requires '=' in key
    ensures Find(key + "=" + value, "=").Some? && Find(key + "=" + value, "=").value < |key|
  {
    hide FindFrom;
    var line := key + "=" + value;
    var k :| 0 <= k < |key| && key[k] == '=';
    assert line[k..k + 1] == "=";
    assert OccursAt(line, "=", k);
  }

  lemma ShorterTrim(text: string)
    ensures |Trim(text)| <= |text|
  {
    hide Trim, IsSpace;
    var lead := TrimLead(text);
  }

  /** A line reads back exactly when its key has no `=`. */
  lemma LineReadsBack(entry: EnvVar)
    requires FieldText(entry.key, '\n') && '\n' !in entry.value && IsTrimmed(entry.value)
    ensures ParseEnvVar(EnvLine(entry)) == entry <==> '=' !in entry.key
  {
    hide Trim, IsTrimmed, FindFrom, Find;
    var line := EnvLine(entry);
    if '=' in entry.key {
      EarlierEquals(entry.key, entry.value);
      var eq := Find(line, "=").value;
      if eq == 0 {
        LineIsText(entry);
        TrimTrimmed(line);
      } else {
        ShorterTrim(line[..eq]);
      }
    } else {
      FirstEquals(entry.key, entry.value);
      assert line[..|entry.key|] == entry.key && line[|entry.key| + 1..] == entry.value;
      TrimTrimmed(entry.key);
      TrimTrimmed(entry.value);
    }
  }

  lemma StartsNoBlank(text: string)
    requires text != [] && !IsSpace(text[0])
    ensures Trim(text) != []
  {
    hide IsSpace;
    TrimEndIs(text);
  }

  /** Whatever line it came from, a variable has no blanks around and no line break. */
  lemma ReadVar(line: string)
    requires FieldText(line, '\n')
    ensures
      var entry := ParseEnvVar(line);
      FieldText(entry.key, '\n') && '\n' !in entry.value && IsTrimmed(entry.value)
  {
    hide Trim, IsTrimmed, FindFrom, Find;
    var eq := Find(line, "=");
    TrimTrimmed(line);
    if eq.Some? && eq.value > 0 {
      var key, value := line[..eq.value], line[eq.value + 1..];
      TrimmedPart(key, '\n');
      TrimmedPart(value, '\n');
      NoBlankFirst(line);
      StartsNoBlank(key);
    } else {
      NothingTrimmed();
    }
  }

  lemma NoBlankFirst(line: string)
    requires line != [] && IsTrimmed(line)
    ensures !IsSpace(line[0])
  {
    hide IsSpace;
  }

  lemma NothingTrimmed()
    ensures IsTrimmed("")
  {
  }

  lemma VarsAre(raw: string)
    ensures
      var lines, env := ParseList(raw, '\n'), ParseEnvVars(raw);
      && |env| == |lines|
      && forall i :: 0 <= i < |env| ==> env[i] == ParseEnvVar(lines[i]) && FieldText(lines[i], '\n')
  {
    hide ParseEnvVar, ParseList, FieldText;
    PartsAreTexts(raw, '\n');
  }

  /** The env comes back from its field exactly when every variable is one it holds. */
  lemma EnvComesBack(env: seq<EnvVar>)
    ensures ParseEnvVars(Join(EnvLines(env), "\n")) == env <==> EnvFields(env)
  {
    hide ParseEnvVar, ParseEnvVars, ParseList, EnvLine, Join, IsTrimmed, FieldText;
    var raw := Join(EnvLines(env), "\n");
    VarsAre(raw);
    if ParseEnvVars(raw) == env || EnvFields(env) {
      forall i | 0 <= i < |env|
        ensures FieldText(env[i].key, '\n') && '\n' !in env[i].value && IsTrimmed(env[i].value)
      {
        if EnvFields(env) {
          assert EnvField(env[i]);
        } else {
          ReadVar(ParseList(raw, '\n')[i]);
        }
      }
      forall i | 0 <= i < |env|
        ensures FieldText(EnvLines(env)[i], '\n') && (ParseEnvVar(EnvLine(env[i])) == env[i] <==> '=' !in env[i].key)
      {
        LineIsText(env[i]);
        LineReadsBack(env[i]);
      }
      ListComesBack(EnvLines(env), '\n', "");
      assert ['\n'] + "" == "\n";
      assert ParseList(raw, '\n') == EnvLines(env);
    }
  }

  // ── Runner labels ───────────────────────────────────────────────

  function LowerEach(labels: seq<string>): (r: seq<string>)
    ensures |r| == |labels| && forall i :: 0 <= i < |labels| ==> r[i] == LowerAscii(labels[i])
  {
    seq(|labels|, i requires 0 <= i < |labels| => LowerAscii(labels[i]))
  }

  /** `parseRunnerLabels`. */
  function ParseRunnerLabels(raw: string): seq<string> {
    Dedup(Sort(LowerEach(ParseList(raw, ','))))
  }

  /** Labels that the field gives back: in order, each once, in lower case. */
  ghost predicate LabelFields(labels: seq<string>) {
    && Ascending(labels) && FieldTexts(labels, ',')
    && forall i :: 0 <= i < |labels| ==> LowerAscii(labels[i]) == labels[i]
  }

  lemma LowerIsText(name: string)
    requires FieldText(name, ',')
    ensures FieldText(LowerAscii(name), ',')
  {
    hide Trim, IsTrimmed;
    LowerTrim(name);
    TrimTrimmed(name);
    TrimTrimmed(LowerAscii(name));
  }

  /** Whatever the field holds, its labels are such labels. */
  lemma ReadLabels(raw: string)
    ensures LabelFields(ParseRunnerLabels(raw))
  {
    hide Before, ParseList, FieldText, Sort, Dedup, Sorted, Ascending, LowerAscii;
    PartsAreTexts(raw, ',');
    var parts := ParseList(raw, ',');
    var each := LowerEach(parts);
    SortSorts(each);
    DedupAscends(Sort(each));
    SameElements(Sort(each), each);
    var r := ParseRunnerLabels(raw);
    forall i | 0 <= i < |r|
      ensures FieldText(r[i], ',') && LowerAscii(r[i]) == r[i]
    {
      assert r[i] in Sort(each);
      var j :| 0 <= j < |each| && each[j] == r[i];
      LowerIsText(parts[j]);
      LowerTwice(parts[j]);
    }
  }

  lemma LabelsComeBack(labels: seq<string>)
    ensures ParseRunnerLabels(Join(labels, ", ")) == labels <==> LabelFields(labels)
  {
    hide Before, ParseList, FieldText, Sort, Dedup, Sorted, Ascending, LowerAscii, Join;
    ReadLabels(Join(labels, ", "));
    if LabelFields(labels) {
      ListComesBack(labels, ',', " ");
      assert [','] + " " == ", ";
      assert LowerEach(labels) == labels;
      AscendingKept(labels);
    }
  }

  // ── The whole form ──────────────────────────────────────────────

  /** The form's fields for execution settings; the build number offset is kept as the
      number it shows. */
  datatype Fields = Fields(
    android: bool, ios: bool, macos: bool, flutterVersion: string, offset: int, runsOn: string, customized: bool,
    preBuild: string, build: string, postBuild: string, args: PerPlatform<string>, commands: PerPlatform<string>,
    env: string, artifacts: string, isolation: Isolation)

  function OrEmpty(text: Option<string>): string {
    if text.Some? then text.value else ""
  }

  /** `trimToUndefined`. */
  function TrimToNone(text: string): Option<string> {
    if Trim(text) == [] then None else Some(Trim(text))
  }

  /** `executionFormFields`. */
  function ToFields(s: Settings, customized: bool): Fields {
    Fields(
      Android in s.platforms, Ios in s.platforms, Macos in s.platforms, OrEmpty(s.flutterVersion), s.offset, Join(s.runsOn, ", "),
      customized || s.preBuild != [] || s.build != [] || s.postBuild != [],
      Join(s.preBuild, "\n"), Join(s.build, "\n"), Join(s.postBuild, "\n"),
      PerPlatform(Join(s.args.android, "\n"), Join(s.args.ios, "\n"), Join(s.args.macos, "\n")),
      PerPlatform(OrEmpty(s.commands.android), OrEmpty(s.commands.ios), OrEmpty(s.commands.macos)),
      Join(EnvLines(s.env), "\n"), Join(s.artifacts, "\n"), s.isolation)
  }

  /** `selectedPlatforms`. */
  function SelectedPlatforms(f: Fields): seq<Platform> {
    (if f.android then [Android] else []) + (if f.ios then [Ios] else []) + (if f.macos then [Macos] else [])
  }

  function FormDefault(platform: Platform): string {
    DefaultArtifacts(platform)[0]
  }

  /** `defaultArtifactPatterns`: the form's own defaults have no bundle pattern. */
  function FormDefaults(platforms: seq<Platform>): seq<string> {
    if platforms == [] then [FormDefault(Android)]
    else
      (if Android in platforms then [FormDefault(Android)] else [])
      + (if Ios in platforms then [FormDefault(Ios)] else [])
      + (if Macos in platforms then [FormDefault(Macos)] else [])
  }

  function ReadPatterns(raw: string, platforms: seq<Platform>): seq<string> {
    var patterns := ParseList(raw, '\n');
    if patterns != [] then patterns else FormDefaults(platforms)
  }

  /** `executionConfigFromForm`. */
  function FromFields(f: Fields): Settings {
    Settings(
      SelectedPlatforms(f), TrimToNone(f.flutterVersion),
      if f.customized then ParseList(f.preBuild, '\n') else [],
      if f.customized then ParseList(f.build, '\n') else [],
      if f.customized then ParseList(f.postBuild, '\n') else [],
      PerPlatform(ParseList(f.args.android, '\n'), ParseList(f.args.ios, '\n'), ParseList(f.args.macos, '\n')),
      PerPlatform(TrimToNone(f.commands.android), TrimToNone(f.commands.ios), TrimToNone(f.commands.macos)),
      ParseEnvVars(f.env), ReadPatterns(f.artifacts, SelectedPlatforms(f)), f.offset, ParseRunnerLabels(f.runsOn), f.isolation)
  }

  predicate FieldOption(text: Option<string>) {
    text.Some? ==> text.value != [] && IsTrimmed(text.value)
  }

  ghost predicate FieldCommands(s: Settings) {
    && FieldTexts(s.preBuild, '\n') && FieldTexts(s.build, '\n') && FieldTexts(s.postBuild, '\n')
    && FieldTexts(s.args.android, '\n') && FieldTexts(s.args.ios, '\n') && FieldTexts(s.args.macos, '\n')
    && FieldOption(s.commands.android) && FieldOption(s.commands.ios) && FieldOption(s.commands.macos)
  }

  /** Settings that the form gives back. */
  ghost predicate FieldSettings(s: Settings) {
    && InFormOrder(s.platforms) == s.platforms && FieldOption(s.flutterVersion) && FieldCommands(s)
    && EnvFields(s.env) && s.artifacts != [] && FieldTexts(s.artifacts, '\n') && LabelFields(s.runsOn)
  }

  lemma OptionComesBack(text: Option<string>)
    ensures TrimToNone(OrEmpty(text)) == text <==> FieldOption(text)
  {
    hide IsTrimmed, Trim;
    TrimTrimmed(OrEmpty(text));
    NothingTrimmed();
  }

  lemma DefaultIsText(platform: Platform)
    ensures FieldText(FormDefault(platform), '\n')
  {
    hide Join, PlainSegments, PlainChar, IsTrimmed;
    var segments := DefaultSegments(platform)[0];
    assert PlainSegments(segments) by {
      match platform {
        case Android => ApkSegments();
        case Ios => AppleSegments();
        case Macos => AppleSegments();
      }
    }
    PlainText(segments);
  }

  lemma PlainText(segments: seq<string>)
    requires PlainSegments(segments)
    ensures FieldText(Join(segments, "/"), '\n')
  {
    hide Join, PlainChar, IsTrimmed, Trim, Split, Size, FindFrom;
    var pattern := Join(segments, "/");
    JoinedPattern(segments);
    TrimTrimmed(pattern);
    JoinedEnd(segments);
    JoinedChars(segments);
    LineBreakIsNotPlain();
  }

  lemma LineBreakIsNotPlain()
    ensures !PlainChar('\n')
  {
  }

  lemma DefaultsAreTexts(platforms: seq<Platform>)
    ensures FieldTexts(FormDefaults(platforms), '\n')
    ensures FormDefaults(platforms) != []
  {
    hide FieldText, FormDefault;
    DefaultIsText(Android);
    DefaultIsText(Ios);
    DefaultIsText(Macos);
    if platforms != [] {
      assert platforms[0] in platforms && platforms[0] in {Android, Ios, Macos} by {
        match platforms[0] {
          case Android =>
          case Ios =>
          case Macos =>
        }
      }
    }
  }

  lemma LinesComeBack(texts: seq<string>)
    ensures ParseList(Join(texts, "\n"), '\n') == texts <==> FieldTexts(texts, '\n')
  {
    hide ParseList, Join, FieldTexts;
    ListComesBack(texts, '\n', "");
    assert ['\n'] + "" == "\n";
  }

  /** An empty list of patterns comes back as the form's defaults. */
  lemma PatternsComeBack(patterns: seq<string>, platforms: seq<Platform>)
    ensures ReadPatterns(Join(patterns, "\n"), platforms) == patterns <==> patterns != [] && FieldTexts(patterns, '\n')
  {
    hide ParseList, Join, FieldTexts, FormDefaults;
    LinesComeBack(patterns);
    DefaultsAreTexts(platforms);
  }

  lemma CommandsComeBack(s: Settings, customized: bool)
    ensures
      var r := FromFields(ToFields(s, customized));
      r.preBuild == s.preBuild && r.build == s.build && r.postBuild == s.postBuild && r.args == s.args && r.commands == s.commands
      <==> FieldCommands(s)
  {
    hide ParseList, Join, FieldTexts, FieldOption, TrimToNone, OrEmpty, ParseEnvVars, ReadPatterns, ParseRunnerLabels, EnvLines,
      SelectedPlatforms;
    LinesComeBack(s.preBuild);
    LinesComeBack(s.build);
    LinesComeBack(s.postBuild);
    LinesComeBack(s.args.android);
    LinesComeBack(s.args.ios);
    LinesComeBack(s.args.macos);
    OptionComesBack(s.commands.android);
    OptionComesBack(s.commands.ios);
    OptionComesBack(s.commands.macos);
    NoTexts();
  }

  lemma NoTexts()
    ensures FieldTexts([], '\n')
  {
  }

  /** Settings come back from the form exactly when every part is one that it holds. */
  lemma SettingsComeBack(s: Settings, customized: bool)
    ensures FromFields(ToFields(s, customized)) == s <==> FieldSettings(s)
  {
    hide ParseList, Join, FieldTexts, FieldOption, FieldCommands, TrimToNone, OrEmpty, ParseEnvVars, ReadPatterns, ParseRunnerLabels,
      EnvLines, EnvFields, LabelFields;
    CommandsComeBack(s, customized);
    OptionComesBack(s.flutterVersion);
    EnvComesBack(s.env);
    PatternsComeBack(s.artifacts, InFormOrder(s.platforms));
    LabelsComeBack(s.runsOn);
  }

  // ── Trigger fields ──────────────────────────────────────────────

  datatype TriggerFields = TriggerFields(
    events: seq<string>, branches: string, tags: string, paths: string, pathsIgnore: string, schedules: seq<string>)

  /** `triggerFormFields`. */
  function ToTriggerFields(t: Triggers.Settings): TriggerFields {
    TriggerFields(
      t.events, Join(t.branches, ", "), Join(t.tags, ", "), Join(t.paths, "\n"), Join(t.pathsIgnore, "\n"), t.schedules)
  }

  /** `tagsApply`. */
  predicate TagsApply(events: seq<string>) {
    events == [] || Triggers.NameOf(Triggers.TagEvent) in events
  }

  /** `pathsApply`. */
  predicate PathsApply(events: seq<string>) {
    events == [] || Triggers.NameOf(Triggers.PushEvent) in events || Triggers.NameOf(Triggers.PullRequestEvent) in events
  }

  /** `triggerConfigFromForm`, for a pipeline that is not manual only. */
  function FromTriggerFields(f: TriggerFields): Triggers.Settings {
    Triggers.Settings(
      f.events, ParseList(f.branches, ','), if TagsApply(f.events) then ParseList(f.tags, ',') else [],
      if PathsApply(f.events) then ParseList(f.paths, '\n') else [],
      if PathsApply(f.events) then ParseList(f.pathsIgnore, '\n') else [], f.schedules)
  }

  /** Trigger settings that the form gives back. */
  ghost predicate FieldTriggers(t: Triggers.Settings) {
    && FieldTexts(t.branches, ',') && FieldTexts(t.tags, ',') && FieldTexts(t.paths, '\n') && FieldTexts(t.pathsIgnore, '\n')
    && (t.tags != [] ==> TagsApply(t.events)) && (t.paths != [] || t.pathsIgnore != [] ==> PathsApply(t.events))
  }

  lemma CsvComesBack(texts: seq<string>)
    ensures ParseList(Join(texts, ", "), ',') == texts <==> FieldTexts(texts, ',')
  {
    hide ParseList, Join, FieldTexts;
    ListComesBack(texts, ',', " ");
    assert [','] + " " == ", ";
  }

  lemma TriggersComeBack(t: Triggers.Settings)
    ensures FromTriggerFields(ToTriggerFields(t)) == t <==> FieldTriggers(t)
  {
    hide ParseList, Join, FieldTexts, TagsApply, PathsApply;
    CsvComesBack(t.branches);
    CsvComesBack(t.tags);
    LinesComeBack(t.paths);
    LinesComeBack(t.pathsIgnore);
    NoTexts();
    assert FieldTexts([], ',') by {
      NoCsv();
    }
  }

  lemma NoCsv()
    ensures FieldTexts([], ',')
  {
  }
}

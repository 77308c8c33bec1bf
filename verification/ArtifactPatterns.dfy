/** Artifact patterns stay inside the workspace. */
module ArtifactPatterns {
  import opened Wrappers
  import opened Text
  import opened Plan
  import opened Lower
  import opened Glob
  import opened PathGlob
  import opened GeneratedFile

  /** Walking down from the workspace, segment by segment: the directories entered, or
      nothing when the path leaves the workspace. */
  function Walk(segments: seq<string>, at: seq<string>): (r: Option<seq<string>>)
    ensures r.Some? ==> |r.value| <= |at| + |segments|
    decreases |segments|
  {
    if segments == [] then Some(at)
    else if segments[0] == "" || segments[0] == "." then Walk(segments[1..], at)
    else if segments[0] == ".." then (if at == [] then None else Walk(segments[1..], at[..|at| - 1]))
    else Walk(segments[1..], at + [segments[0]])
  }

  ghost predicate PlainNames(segments: seq<string>) {
    forall i :: 0 <= i < |segments| ==> segments[i] !in {"", ".", ".."}
  }

  lemma {:induction false} PlainWalk(segments: seq<string>, at: seq<string>)
    requires PlainNames(segments)
    ensures Walk(segments, at) == Some(at + segments)
    decreases |segments|
  {
    if segments == [] {
      assert at + segments == at;
    } else {
      assert segments[0] !in {"", ".", ".."};
      PlainWalk(segments[1..], at + [segments[0]]);
      assert at + [segments[0]] + segments[1..] == at + segments;
    }
  }

  /** A segment that is no name costs a step. */
  lemma {:induction false} ShortWalk(segments: seq<string>, at: seq<string>, i: nat)
    requires i < |segments| && segments[i] in {"", ".", ".."}
    ensures Walk(segments, at).Some? ==> |Walk(segments, at).value| < |at| + |segments|
    decreases |segments|
  {
    if i > 0 {
      var rest := segments[1..];
      ShortWalk(rest, at, i - 1);
      ShortWalk(rest, at + [segments[0]], i - 1);
      if at != [] {
        ShortWalk(rest, at[..|at| - 1], i - 1);
      }
    }
  }

  /** Each segment enters one directory exactly when all are names. */
  lemma WalkIsDown(segments: seq<string>)
    ensures Walk(segments, []) == Some(segments) <==> PlainNames(segments)
  {
    hide Walk;
    if PlainNames(segments) {
      PlainWalk(segments, []);
      assert [] + segments == segments;
    } else {
      var i :| 0 <= i < |segments| && segments[i] in {"", ".", ".."};
      ShortWalk(segments, [], i);
    }
  }

  /** `validate_artifact_pattern` accepts a pattern, blanks around it aside, exactly when it is
      short, has a wildcard and no other separator, and every segment goes one directory
      further into the workspace. */
  lemma PatternStaysInside(pattern: string)
    ensures IsArtifactPattern(pattern) <==>
      var trimmed := Trim(pattern);
      && Size(trimmed) <= 512 && ('*' in trimmed || '?' in trimmed) && '\\' !in trimmed
      && Walk(Split(trimmed, '/'), []) == Some(Split(trimmed, '/'))
  {
    hide Trim, Size, Split, Walk;
    var trimmed := Trim(pattern);
    WalkIsDown(Split(trimmed, '/'));
    if '*' in trimmed || '?' in trimmed {
      var i :| 0 <= i < |trimmed| && IsWildcard(trimmed[i]);
    }
    if trimmed != [] && trimmed[0] == '/' {
      RootedSplit(trimmed);
    }
  }

  lemma RootedSplit(path: string)
    requires path != [] && path[0] == '/'
    ensures Split(path, '/')[0] == ""
  {
  }

  // ── What the defaults collect ───────────────────────────────────

  lemma {:induction false} SelfMatches(value: seq<byte>)
    requires STAR !in value
    ensures Matches(value, value)
  {
    if value != [] {
      SelfMatches(value[1..]);
    }
  }

  lemma LiteralSegment(segment: string)
    requires '*' !in segment
    ensures SegmentMatch(segment, segment)
  {
    hide GlobMatch, Utf8, Matches;
    AsciiBytes(segment, STAR);
    SelfMatches(Utf8(segment));
    GreedyIsExact(Utf8(segment), Utf8(segment));
  }

  lemma StarByte()
    ensures Utf8("*") == [STAR]
  {
    assert "*"[1..] == "";
  }

  /** A star and an extension match every name with that extension. */
  lemma ExtensionSegment(name: string, extension: string)
    requires '*' !in name && '*' !in extension
    ensures SegmentMatch("*" + extension, name + extension)
  {
    hide GlobMatch, Utf8;
    StarByte();
    Utf8Concat("*", extension);
    Utf8Concat(name, extension);
    AsciiBytes(name + extension, STAR);
    AsciiBytes(extension, STAR);
    var pattern, value, tail := Utf8("*" + extension), Utf8(name + extension), Utf8(extension);
    SelfMatches(tail);
    assert pattern[1..] == tail && value[|Utf8(name)|..] == tail;
    assert Matches(pattern, value);
    GreedyIsExact(pattern, value);
  }

  ghost predicate Literal(segments: seq<string>) {
    forall i :: 0 <= i < |segments| ==> '*' !in segments[i] && '/' !in segments[i]
  }

  /** The same directories before a pattern and a path. */
  lemma {:induction false} Below(directories: seq<string>, pattern: seq<string>, path: seq<string>)
    requires Literal(directories) && PathMatches(pattern, path)
    ensures PathMatches(directories + pattern, directories + path)
  {
    hide SegmentMatch;
    if directories == [] {
      assert directories + pattern == pattern && directories + path == path;
    } else {
      Below(directories[1..], pattern, path);
      LiteralSegment(directories[0]);
      assert (directories + pattern)[1..] == directories[1..] + pattern;
      assert (directories + path)[1..] == directories[1..] + path;
      assert "**"[0] == '*';
    }
  }

  /** Any run of directories for `**`. */
  lemma {:induction false} SomewhereBelow(run: seq<string>, pattern: seq<string>, path: seq<string>)
    requires PathMatches(pattern, path)
    ensures PathMatches(["**"] + pattern, run + path)
  {
    hide SegmentMatch;
    assert (["**"] + pattern)[1..] == pattern;
    if run == [] {
      assert run + path == path;
    } else {
      SomewhereBelow(run[1..], pattern, path);
      assert (run + path)[1..] == run[1..] + path;
    }
  }

  lemma OnePath(pattern: string, segment: string)
    requires SegmentMatch(pattern, segment) && pattern != "**"
    ensures PathMatches([pattern], [segment])
  {
    hide SegmentMatch;
    assert [pattern][1..] == [] && [segment][1..] == [];
  }

  /** A pattern of several plain segments matches a path segment by segment. */
  lemma JoinedMatches(pattern: seq<string>, path: seq<string>)
    requires PlainSegments(pattern) && |pattern| > 1 && path != [] && forall i :: 0 <= i < |path| ==> '/' !in path[i]
    ensures ArtifactPatternMatches(Join(pattern, "/"), Join(path, "/")) <==> PathMatches(pattern, path)
  {
    hide Join, Split, PathMatches, Trim, PlainChar, SegmentMatch, Size, Contains;
    JoinedPattern(pattern);
    forall i | 0 <= i < |pattern|
      ensures '/' !in pattern[i]
    {
      assert PlainSegment(pattern[i]);
    }
    SplitJoined(pattern);
    SplitJoined(path);
    if '/' !in Join(pattern, "/") {
      SplitNothing(Join(pattern, "/"), '/');
    }
  }

  /** Directories and a file with the extension, as a pattern and as a path. */
  lemma Collects(directories: seq<string>, deep: bool, run: seq<string>, name: string, extension: string)
    requires Literal(directories) && '*' !in name && '*' !in extension && (!deep ==> run == []) && extension != "*"
    ensures
      var middle := if deep then ["**"] else [];
      PathMatches(directories + (middle + ["*" + extension]), directories + (run + [name + extension]))
  {
    hide SegmentMatch, PathMatches;
    ExtensionSegment(name, extension);
    assert ("*" + extension)[0] == '*' && (|extension| > 0 ==> ("*" + extension)[1] == extension[0]);
    OnePath("*" + extension, name + extension);
    var last, file := ["*" + extension], [name + extension];
    if deep {
      SomewhereBelow(run, last, file);
      Below(directories, ["**"] + last, run + file);
    } else {
      assert [] + last == last && run + file == file;
      Below(directories, last, file);
    }
  }

  /** Where `flutter build` writes what it makes for a platform: directories, whether there may
      be more of them below, and the file's extension. */
  datatype Output = Output(directories: seq<string>, deep: bool, extension: string)

  function Outputs(platform: Platform): seq<Output> {
    match platform
    case Android => [Output(["build", "app", "outputs", "flutter-apk"], false, ".apk"), Output(["build", "app", "outputs", "bundle"], true, ".aab")]
    case Ios => [Output(["build", "ios", "ipa"], false, ".ipa")]
    case Macos => [Output(["build", "macos", "Build", "Products", "Release"], false, ".app")]
  }

  lemma OutputSegments(platform: Platform, k: nat)
    requires k < |Outputs(platform)|
    ensures
      var output := Outputs(platform)[k];
      && |DefaultSegments(platform)| == |Outputs(platform)|
      && DefaultSegments(platform)[k] == output.directories + ((if output.deep then ["**"] else []) + ["*" + output.extension])
  {
    assert "*" + ".apk" == "*.apk" && "*" + ".aab" == "*.aab" && "*" + ".ipa" == "*.ipa" && "*" + ".app" == "*.app";
  }

  lemma OutputIsLiteral(platform: Platform, k: nat)
    requires k < |Outputs(platform)|
    ensures Literal(Outputs(platform)[k].directories) && '*' !in Outputs(platform)[k].extension && '/' !in Outputs(platform)[k].extension
    ensures Outputs(platform)[k].directories != [] && Outputs(platform)[k].extension != "*"
  {
  }

  lemma DefaultIsPlain(platform: Platform, k: nat)
    requires k < |DefaultSegments(platform)|
    ensures PlainSegments(DefaultSegments(platform)[k]) && |DefaultSegments(platform)[k]| > 1
  {
    hide PlainSegments;
    ApkSegments();
    AabSegments();
    AppleSegments();
  }

  /** The default patterns collect every file with the right extension that a build writes,
      whatever it is called, as long as its name has no `*`. */
  lemma DefaultsCollect(platform: Platform, k: nat, run: seq<string>, name: string)
    requires k < |Outputs(platform)| && '*' !in name && '/' !in name
    requires !Outputs(platform)[k].deep ==> run == []
    requires forall i :: 0 <= i < |run| ==> '/' !in run[i]
    ensures
      var output := Outputs(platform)[k];
      var path := Join(output.directories + (run + [name + output.extension]), "/");
      k < |DefaultArtifacts(platform)| && ArtifactPatternMatches(DefaultArtifacts(platform)[k], path)
  {
    hide Outputs, DefaultSegments, PathMatches, ArtifactPatternMatches, Join, PlainSegments;
    OutputSegments(platform, k);
    OutputIsLiteral(platform, k);
    var output := Outputs(platform)[k];
    Collects(output.directories, output.deep, run, name, output.extension);
    DefaultIsPlain(platform, k);
    JoinedMatches(DefaultSegments(platform)[k], output.directories + (run + [name + output.extension]));
  }
}

/** Path globs: `*` and `?` within a segment, `**` across segments. */
module PathGlob {
  import opened Wrappers
  import opened Text
  import opened Glob

  function SegmentMatch(pattern: string, segment: string): bool {
    GlobMatch(Utf8(pattern), Utf8(segment))
  }

  /** `path_matches` in `artifact_pattern_matches`. */
  function PathMatches(pattern: seq<string>, path: seq<string>): bool
    decreases |pattern| + |path|
  {
    if pattern == [] then path == []
    else if pattern[0] == "**" then
      PathMatches(pattern[1..], path) || (path != [] && PathMatches(pattern, path[1..]))
    else
      path != [] && SegmentMatch(pattern[0], path[0]) && PathMatches(pattern[1..], path[1..])
  }

  /** `artifact_pattern_matches`. */
  function ArtifactPatternMatches(pattern: string, path: string): bool {
    var pattern := Trim(pattern);
    if '/' !in pattern then
      var segments := Split(path, '/');
      SegmentMatch(pattern, segments[|segments| - 1])
    else PathMatches(Split(pattern, '/'), Split(path, '/'))
  }

  /** `changed_path_matches`. */
  function ChangedPathMatches(pattern: string, path: string): bool {
    var pattern := Trim(pattern);
    if pattern != [] && pattern[|pattern| - 1] == '/' then
      ArtifactPatternMatches(pattern[..|pattern| - 1] + "/**", path)
    else ArtifactPatternMatches(pattern, path)
  }

  // ── The declarative reading ─────────────────────────────────────

  ghost function Flatten(parts: seq<seq<string>>): seq<string> {
    if parts == [] then [] else parts[0] + Flatten(parts[1..])
  }

  ghost predicate Covers(segment: string, part: seq<string>) {
    segment == "**" || (|part| == 1 && SegmentMatch(segment, part[0]))
  }

  /** The path splits so that each plain segment takes one path segment and each `**`
      takes any run of them. */
  ghost predicate Splits(parts: seq<seq<string>>, pattern: seq<string>, path: seq<string>) {
    && |parts| == |pattern|
    && Flatten(parts) == path
    && forall i :: 0 <= i < |parts| ==> Covers(pattern[i], parts[i])
  }

  lemma {:induction false} SplitFound(pattern: seq<string>, path: seq<string>) returns (parts: seq<seq<string>>)
    requires PathMatches(pattern, path)
    ensures Splits(parts, pattern, path)
    decreases |pattern| + |path|
  {
    if pattern == [] {
      parts := [];
    } else if pattern[0] != "**" {
      var rest := SplitFound(pattern[1..], path[1..]);
      parts := [[path[0]]] + rest;
      assert parts[1..] == rest;
    } else if PathMatches(pattern[1..], path) {
      var rest := SplitFound(pattern[1..], path);
      parts := [[]] + rest;
      assert parts[1..] == rest;
    } else {
      var rest := SplitFound(pattern, path[1..]);
      parts := [[path[0]] + rest[0]] + rest[1..];
      assert parts[1..] == rest[1..];
      assert path == [path[0]] + path[1..];
    }
  }

  lemma {:induction false} SplitMatches(parts: seq<seq<string>>, pattern: seq<string>, path: seq<string>)
    requires Splits(parts, pattern, path)
    ensures PathMatches(pattern, path)
    decreases |pattern| + |path|
  {
    if pattern != [] {
      assert Covers(pattern[0], parts[0]);
      if pattern[0] == "**" && parts[0] != [] {
        var less := [parts[0][1..]] + parts[1..];
        assert less[1..] == parts[1..];
        assert path[1..] == Flatten(less);
        SplitMatches(less, pattern, path[1..]);
      } else {
        assert path[|parts[0]|..] == Flatten(parts[1..]);
        SplitMatches(parts[1..], pattern[1..], path[|parts[0]|..]);
      }
    }
  }

  /** Relative to segment matching, the recursion accepts exactly the paths that split. */
  lemma PathMatchesMeaning(pattern: seq<string>, path: seq<string>)
    ensures PathMatches(pattern, path) <==> exists parts :: Splits(parts, pattern, path)
  {
    if PathMatches(pattern, path) {
      var parts := SplitFound(pattern, path);
    }
    if parts :| Splits(parts, pattern, path) {
      SplitMatches(parts, pattern, path);
    }
  }

  // ── Directories ─────────────────────────────────────────────────

  lemma {:induction false} AnyRun(path: seq<string>)
    ensures PathMatches(["**"], path)
  {
    if path == [] {
      assert ["**"][1..] == [];
    } else {
      AnyRun(path[1..]);
    }
  }

  /** A final `**` accepts exactly what has a matching beginning. */
  lemma {:induction false} TrailingRun(pattern: seq<string>, path: seq<string>)
    ensures PathMatches(pattern + ["**"], path) <==> exists j :: 0 <= j <= |path| && PathMatches(pattern, path[..j])
    decreases |pattern| + |path|
  {
    var whole := pattern + ["**"];
    if pattern == [] {
      assert whole == ["**"];
      AnyRun(path);
      assert PathMatches(pattern, path[..0]);
    } else {
      assert whole[1..] == pattern[1..] + ["**"];
      if pattern[0] == "**" {
        TrailingRun(pattern[1..], path);
        if path != [] {
          TrailingRun(pattern, path[1..]);
          forall j | 0 <= j < |path|
            ensures PathMatches(pattern, path[1..][..j]) ==> PathMatches(pattern, path[..j + 1])
          {
            assert path[..j + 1][1..] == path[1..][..j];
          }
          forall j | 0 <= j <= |path| && PathMatches(pattern, path[..j])
            ensures PathMatches(whole, path)
          {
            if j > 0 {
              assert path[..j][1..] == path[1..][..j - 1];
            }
          }
        }
      } else if path != [] {
        TrailingRun(pattern[1..], path[1..]);
        forall j | 0 <= j < |path|
          ensures path[..j + 1][1..] == path[1..][..j]
        {
        }
        if j :| 0 <= j <= |path[1..]| && PathMatches(pattern[1..], path[1..][..j]) {
          assert PathMatches(pattern, path[..j + 1]) <==> SegmentMatch(pattern[0], path[0]);
        }
        forall j | 0 <= j <= |path| && PathMatches(pattern, path[..j])
          ensures PathMatches(whole, path)
        {
          assert path[..j][1..] == path[1..][..j - 1];
        }
      }
    }
  }

  lemma {:induction false} PlainMatches(pattern: seq<string>, path: seq<string>)
    requires "**" !in pattern
    ensures PathMatches(pattern, path) <==>
      |path| == |pattern| && forall i :: 0 <= i < |pattern| ==> SegmentMatch(pattern[i], path[i])
  {
    if pattern != [] && path != [] {
      PlainMatches(pattern[1..], path[1..]);
    }
  }

  /** A pattern ending in `/` matches exactly the paths with a beginning that matches
      the directory. */
  lemma DirectoryPattern(pattern: string, directory: string, path: string)
    requires Trim(pattern) == directory + "/"
    ensures
      var segments := Split(path, '/');
      ChangedPathMatches(pattern, path) <==>
      exists j :: 0 <= j <= |segments| && PathMatches(Split(directory, '/'), segments[..j])
  {
    hide PathMatches, SegmentMatch, Split;
    var whole := directory + "/**";
    assert (directory + "/")[..|directory|] == directory;
    assert IsTrimmed(whole) by {
      TrimIs(pattern);
      assert whole[0] == Trim(pattern)[0];
    }
    TrimTrimmed(whole);
    assert whole[|directory|] == '/';
    SplitConcat(directory, "**", '/');
    assert directory + "/" + "**" == whole;
    SplitNothing("**", '/');
    assert ChangedPathMatches(pattern, path) == ArtifactPatternMatches(whole, path);
    assert Split(whole, '/') == Split(directory, '/') + ["**"];
    assert '/' in whole;
    assert ArtifactPatternMatches(whole, path) == PathMatches(Split(directory, '/') + ["**"], Split(path, '/'));
    TrailingRun(Split(directory, '/'), Split(path, '/'));
  }

  /** Without `**` in the directory: exactly the paths whose leading segments match it. */
  lemma PlainDirectoryPattern(pattern: string, directory: string, path: string)
    requires Trim(pattern) == directory + "/"
    requires "**" !in Split(directory, '/')
    ensures
      var wanted, segments := Split(directory, '/'), Split(path, '/');
      ChangedPathMatches(pattern, path) <==>
      |wanted| <= |segments| && forall i :: 0 <= i < |wanted| ==> SegmentMatch(wanted[i], segments[i])
  {
    hide PathMatches, ChangedPathMatches, SegmentMatch, Split;
    var wanted, segments := Split(directory, '/'), Split(path, '/');
    DirectoryPattern(pattern, directory, path);
    forall j | 0 <= j <= |segments| {
      PlainMatches(wanted, segments[..j]);
    }
    if |wanted| <= |segments| {
      assert PathMatches(wanted, segments[..|wanted|]) <==> forall i :: 0 <= i < |wanted| ==> SegmentMatch(wanted[i], segments[..|wanted|][i]);
    }
  }

  // ── Names anywhere ──────────────────────────────────────────────

  lemma {:induction false} LastSegment(pattern: string, segments: seq<string>)
    requires segments != [] && pattern != "**"
    ensures PathMatches(["**", pattern], segments) <==> SegmentMatch(pattern, segments[|segments| - 1])
    decreases |segments|
  {
    hide SegmentMatch;
    OneSegment(pattern, segments);
    if |segments| > 1 {
      LastSegment(pattern, segments[1..]);
      assert ["**", pattern][1..] == [pattern];
    } else {
      assert ["**", pattern][1..] == [pattern];
      assert segments[1..] == [];
      OneSegment(pattern, []);
      NoSegments(pattern);
    }
  }

  lemma OneSegment(pattern: string, segments: seq<string>)
    requires pattern != "**"
    ensures PathMatches([pattern], segments) <==> |segments| == 1 && SegmentMatch(pattern, segments[0])
  {
    hide SegmentMatch;
    assert [pattern][1..] == [];
    if segments != [] {
      assert segments[1..] == [] <==> |segments| == 1;
    }
  }

  lemma NoSegments(pattern: string)
    requires pattern != "**"
    ensures !PathMatches(["**", pattern], [])
  {
    assert ["**", pattern][1..] == [pattern];
  }

  /** A pattern without `/` is looked for at any depth: it matches as `**` and the pattern. */
  lemma NameAnywhere(pattern: string, path: string)
    requires '/' !in Trim(pattern) && Trim(pattern) != "**"
    ensures ArtifactPatternMatches(pattern, path) <==> PathMatches(["**", Trim(pattern)], Split(path, '/'))
  {
    hide Split, PathMatches, SegmentMatch, Trim;
    LastSegment(Trim(pattern), Split(path, '/'));
  }

  /** It matches exactly by the file's name, whatever directory the file is in. */
  lemma NameMatches(pattern: string, directory: string, name: string)
    requires '/' !in Trim(pattern) && '/' !in name
    ensures ArtifactPatternMatches(pattern, name) <==> SegmentMatch(Trim(pattern), name)
    ensures ArtifactPatternMatches(pattern, directory + "/" + name) <==> SegmentMatch(Trim(pattern), name)
  {
    hide Split, SegmentMatch, Trim;
    SplitNothing(name, '/');
    SplitConcat(directory, name, '/');
  }

  /** A pattern with `/` is matched segment by segment from the start of the path. */
  lemma RootedPattern(pattern: string, path: string)
    requires '/' in Trim(pattern)
    ensures ArtifactPatternMatches(pattern, path) <==> PathMatches(Split(Trim(pattern), '/'), Split(path, '/'))
  {
    hide Split, PathMatches, Trim;
  }

  /** Changed paths are matched alike, unless the pattern ends in `/`. */
  lemma PlainChangedPath(pattern: string, path: string)
    requires Trim(pattern) == [] || Trim(pattern)[|Trim(pattern)| - 1] != '/'
    ensures ChangedPathMatches(pattern, path) <==> ArtifactPatternMatches(pattern, path)
  {
    hide Split, PathMatches, Trim, SegmentMatch;
    TrimTwice(pattern);
  }

  /** A lone `**` matches every name without a `*`, as `*` does: it stays within the name. */
  lemma LoneDoubleStar(directory: string, name: string)
    requires '/' !in name && '*' !in name
    ensures ArtifactPatternMatches("**", name) && ArtifactPatternMatches("**", directory + "/" + name)
  {
    hide Split, Utf8, Trim;
    var value := Utf8(name);
    assert Trim("**") == "**" by {
      StarsAreTrimmed();
    }
    NameMatches("**", directory, name);
    AsciiBytes(name, STAR);
    TwoStars();
    assert Utf8("**")[1..] == [STAR] && [STAR][1..] == [];
    assert value[|value|..] == [] && Matches([], value[|value|..]);
    assert Matches([STAR], value);
    assert value[0..] == value;
    assert Matches(Utf8("**"), value);
    GreedyIsExact(Utf8("**"), value);
  }

  lemma StarsAreTrimmed()
    ensures Trim("**") == "**"
  {
    hide TrimStart, TrimEnd;
    assert !IsSpace('*');
    TrimTrimmed("**");
  }

  lemma TwoStars()
    ensures Utf8("**") == [STAR, STAR]
  {
    assert EncodeChar('*') == [STAR];
    assert "**"[1..] == "*" && "*"[1..] == "";
    assert Utf8("*") == [STAR] + Utf8("");
  }
}

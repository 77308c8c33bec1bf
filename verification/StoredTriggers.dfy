/** Trigger settings as stored, whose globs may hold blanks that mapping drops: when the
    mapped `on` still starts the same webhooks. */
module StoredTriggers {
  import opened Wrappers
  import opened Text
  import opened Glob
  import opened PathGlob
  import opened Triggers

  // ── Globs without wildcards ─────────────────────────────────────

  predicate IsLiteral(pattern: string) {
    '*' !in pattern && '?' !in pattern
  }

  ghost predicate AllLiteral(patterns: seq<string>) {
    forall i :: 0 <= i < |patterns| ==> IsLiteral(patterns[i])
  }

  lemma {:induction false} PlainBytesMatch(pattern: seq<byte>, value: seq<byte>, i: nat)
    requires STAR !in pattern && QUESTION !in pattern && i <= |pattern| && i <= |value| && pattern[..i] == value[..i]
    ensures Greedy(pattern, value, i, i, NoStar) <==> pattern == value
    decreases |value| - i
  {
    if i == |value| {
      assert pattern[..i] == value;
      assert AllStars(pattern[i..]) <==> i == |pattern| by {
        if i < |pattern| {
          assert pattern[i..][0] == pattern[i] != STAR;
        }
      }
    } else if i < |pattern| && pattern[i] == value[i] {
      assert pattern[..i + 1] == pattern[..i] + [pattern[i]] && value[..i + 1] == value[..i] + [value[i]];
      PlainBytesMatch(pattern, value, i + 1);
    }
  }

  /** Without wildcards a glob matches itself and nothing else. */
  lemma LiteralMatches(pattern: string, reference: string)
    requires IsLiteral(pattern)
    ensures GlobMatch(Utf8(pattern), Utf8(reference)) <==> pattern == reference
  {
    hide Utf8, Greedy;
    AsciiBytes(pattern, STAR);
    AsciiBytes(pattern, QUESTION);
    PlainBytesMatch(Utf8(pattern), Utf8(reference), 0);
    if Utf8(pattern) == Utf8(reference) {
      Utf8Apart(pattern, reference);
    }
  }

  lemma LiteralsMatch(patterns: seq<string>, reference: string)
    requires AllLiteral(patterns)
    ensures MatchesAny(patterns, reference) <==> reference in patterns
  {
    hide Utf8, GlobMatch, IsLiteral;
    forall i | 0 <= i < |patterns|
      ensures GlobMatch(Utf8(patterns[i]), Utf8(reference)) <==> patterns[i] == reference
    {
      LiteralMatches(patterns[i], reference);
    }
  }

  lemma BlankIsLiteral(pattern: string)
    requires IsBlank(pattern)
    ensures IsLiteral(pattern)
  {
    hide TrimStart, TrimEnd;
    TrimStartIs(pattern);
    TrimEndIs(TrimStart(pattern));
    assert TrimStart(pattern) == [];
    assert forall i :: 0 <= i < |pattern| ==> IsSpace(pattern[i]);
    assert !IsSpace('*') && !IsSpace('?');
  }

  // ── One list ────────────────────────────────────────────────────

  /** Reading the globs clean changes nothing they match. */
  ghost predicate SameRefs(patterns: seq<string>) {
    forall reference: string :: MatchesAny(patterns, reference) <==> MatchesAny(Cleaned(patterns), reference)
  }

  lemma {:induction false} CleanedFrom(patterns: seq<string>)
    ensures forall x :: x in Cleaned(patterns) ==> exists i :: 0 <= i < |patterns| && x == Trim(patterns[i])
    ensures Cleaned(patterns) == [] <==> forall i :: 0 <= i < |patterns| ==> IsBlank(patterns[i])
  {
    hide Trim;
    if patterns != [] {
      CleanedFrom(patterns[1..]);
      forall x | x in Cleaned(patterns)
        ensures exists i :: 0 <= i < |patterns| && x == Trim(patterns[i])
      {
        if x in Cleaned(patterns[1..]) {
          var i :| 0 <= i < |patterns[1..]| && x == Trim(patterns[1..][i]);
          assert x == Trim(patterns[i + 1]);
        } else {
          assert x == Trim(patterns[0]);
        }
      }
      assert Cleaned(patterns) == [] ==> IsBlank(patterns[0]) && Cleaned(patterns[1..]) == [];
      if Cleaned(patterns) == [] {
        forall i | 0 <= i < |patterns|
          ensures IsBlank(patterns[i])
        {
          if i > 0 {
            assert IsBlank(patterns[1..][i - 1]);
          }
        }
      } else if IsBlank(patterns[0]) {
        var i :| 0 <= i < |patterns[1..]| && !IsBlank(patterns[1..][i]);
        assert !IsBlank(patterns[i + 1]);
      }
    }
  }

  lemma TrimmedLiteral(pattern: string)
    requires IsLiteral(pattern)
    ensures IsLiteral(Trim(pattern))
  {
    hide Trim, IsSpace;
    var lead := TrimLead(pattern);
    assert forall i :: 0 <= i < |Trim(pattern)| ==> Trim(pattern)[i] == pattern[lead + i];
  }

  lemma CleanedLiteral(patterns: seq<string>)
    requires AllLiteral(patterns)
    ensures AllLiteral(Cleaned(patterns))
  {
    hide Trim, IsLiteral, Cleaned;
    CleanedFrom(patterns);
    var clean := Cleaned(patterns);
    forall i | 0 <= i < |clean|
      ensures IsLiteral(clean[i])
    {
      assert clean[i] in clean;
      var k :| 0 <= k < |patterns| && clean[i] == Trim(patterns[k]);
      TrimmedLiteral(patterns[k]);
    }
  }

  /** Clean globs match what they match; of globs without wildcards only clean ones do. */
  lemma SameRefsExact(patterns: seq<string>)
    ensures AllClean(patterns) ==> SameRefs(patterns)
    ensures AllLiteral(patterns) ==> (SameRefs(patterns) <==> AllClean(patterns))
  {
    hide MatchesAny, Cleaned, AllLiteral, IsTrimmed;
    if AllClean(patterns) {
      CleanedClean(patterns);
    } else if AllLiteral(patterns) {
      var i :| 0 <= i < |patterns| && !(patterns[i] != [] && IsTrimmed(patterns[i]));
      CleanedLiteral(patterns);
      LiteralsMatch(patterns, patterns[i]);
      LiteralsMatch(Cleaned(patterns), patterns[i]);
      CleanedIsClean(patterns);
      assert patterns[i] !in Cleaned(patterns);
      assert MatchesAny(patterns, patterns[i]) && !MatchesAny(Cleaned(patterns), patterns[i]);
    }
  }

  // ── Paths ───────────────────────────────────────────────────────

  /** What the daemon stores: path globs may have blanks around them, but none is blank. */
  ghost predicate StoredPaths(s: Settings) {
    (forall i :: 0 <= i < |s.paths| ==> !IsBlank(s.paths[i])) && (forall i :: 0 <= i < |s.pathsIgnore| ==> !IsBlank(s.pathsIgnore[i]))
  }

  lemma TrimmedPath(pattern: string, file: string)
    ensures ChangedPathMatches(Trim(pattern), file) == ChangedPathMatches(pattern, file)
  {
    hide Trim, ArtifactPatternMatches;
    TrimTwice(pattern);
  }

  lemma {:induction false} CleanedPaths(patterns: seq<string>, file: string)
    requires forall i :: 0 <= i < |patterns| ==> !IsBlank(patterns[i])
    ensures |Cleaned(patterns)| == |patterns| && forall i :: 0 <= i < |patterns| ==> Cleaned(patterns)[i] == Trim(patterns[i])
    ensures PathMatchesAny(Cleaned(patterns), file) <==> PathMatchesAny(patterns, file)
  {
    hide Trim, ChangedPathMatches;
    if patterns != [] {
      assert !IsBlank(patterns[0]);
      CleanedPaths(patterns[1..], file);
    }
    forall i | 0 <= i < |patterns|
      ensures ChangedPathMatches(Trim(patterns[i]), file) == ChangedPathMatches(patterns[i], file)
    {
      TrimmedPath(patterns[i], file);
    }
  }

  lemma SamePathFilter(s: Settings, changed: Option<seq<string>>)
    requires StoredPaths(s) && Cleaned(s.pathsIgnore) == []
    ensures s.pathsIgnore == [] && (s.paths == [] <==> Cleaned(s.paths) == [])
    ensures SettingsPathsMatch(CleanOf(s), changed) <==> SettingsPathsMatch(s, changed)
  {
    hide Cleaned, PathMatchesAny, IsBlank;
    forall file: string
      ensures PathMatchesAny(Cleaned(s.paths), file) <==> PathMatchesAny(s.paths, file)
    {
      CleanedPaths(s.paths, file);
    }
    CleanedPaths(s.paths, "");
    CleanedPaths(s.pathsIgnore, "");
    assert forall file: string :: !PathMatchesAny([], file) by {
      NoPaths();
    }
    var t := CleanOf(s);
    assert t.pathsIgnore == [] && t.paths == Cleaned(s.paths);
  }

  lemma NoPaths()
    ensures forall file: string :: !PathMatchesAny([], file)
  {
  }

  // ── All webhooks ────────────────────────────────────────────────

  ghost predicate SameStarts(s: Settings, t: Settings) {
    forall eventType: string, w: Webhook, changed: Option<seq<string>> | NormalizeEvent(eventType) == Canonical(EventOf(w)) ::
      SettingsStart(s, eventType, w, changed) <==> SettingsStart(t, eventType, w, changed)
  }

  predicate ListsBranches(s: Settings) {
    Listed(s, Canonical(PushEvent)) || Listed(s, Canonical(PullRequestEvent))
  }

  predicate ListsTags(s: Settings) {
    Listed(s, Canonical(TagEvent))
  }

  predicate NoFilter(s: Settings) {
    s.branches == [] && s.tags == []
  }

  /** Nothing is lost by reading the refs clean: there is no filter, or no event to filter,
      or the filter stays one and each list in use matches the same refs. */
  ghost predicate RefsKept(s: Settings) {
    || NoFilter(s)
    || (!ListsBranches(s) && !ListsTags(s))
    || (&& !NoFilter(CleanOf(s))
        && (ListsBranches(s) ==> SameRefs(s.branches))
        && (ListsTags(s) ==> SameRefs(s.tags)))
  }

  lemma BlanksMatchNoLetter(patterns: seq<string>)
    requires Cleaned(patterns) == []
    ensures !MatchesAny(patterns, "m")
  {
    hide Cleaned, GlobMatch, Utf8, Trim;
    CleanedFrom(patterns);
    forall i | 0 <= i < |patterns|
      ensures !GlobMatch(Utf8(patterns[i]), Utf8("m"))
    {
      BlankIsLiteral(patterns[i]);
      LiteralMatches(patterns[i], "m");
      LetterIsNotBlank();
    }
  }

  lemma LetterIsNotBlank()
    ensures !IsBlank("m")
  {
    assert !IsSpace('m');
    TrimTrimmed("m");
  }

  /** Without path filters in play, a start is a matter of events and refs. */
  lemma StartsByRef(s: Settings, eventType: string, w: Webhook)
    ensures SettingsStart(s, eventType, w, None) <==>
      && Listed(s, NormalizeEvent(eventType))
      && match w
         case Push(branch) => NoFilter(s) || MatchesAny(s.branches, branch)
         case PullRequest(source, _) => NoFilter(s) || (source.Some? && MatchesAny(s.branches, source.value))
         case Tag(tag) => NoFilter(s) || MatchesAny(s.tags, tag)
  {
    hide Listed, NormalizeEvent, MatchesAny;
  }

  lemma SameListed(s: Settings)
    ensures forall event :: Listed(CleanOf(s), event) == Listed(s, event)
  {
  }

  lemma KeptStarts(s: Settings, eventType: string, w: Webhook, changed: Option<seq<string>>)
    requires MapTriggers(s).Mapped? && StoredPaths(s) && RefsKept(s)
    requires NormalizeEvent(eventType) == Canonical(EventOf(w))
    ensures SettingsStart(s, eventType, w, changed) <==> SettingsStart(CleanOf(s), eventType, w, changed)
  {
    hide Listed, NormalizeEvent, MatchesAny, SettingsPathsMatch, Cleaned, StoredPaths;
    SameListed(s);
    SamePathFilter(s, changed);
    if NoFilter(s) {
      NothingCleaned(s);
    }
  }

  lemma NothingCleaned(s: Settings)
    requires NoFilter(s)
    ensures NoFilter(CleanOf(s))
  {
  }

  /** A webhook for a branch or a tag. */
  function BranchHook(s: Settings, branch: string): Webhook {
    if Listed(s, Canonical(PushEvent)) then Push(branch) else PullRequest(Some(branch), None)
  }

  lemma BranchDiffers(s: Settings, branch: string)
    requires ListsBranches(s)
    requires (NoFilter(s) || MatchesAny(s.branches, branch)) != (NoFilter(CleanOf(s)) || MatchesAny(Cleaned(s.branches), branch))
    ensures !SameStarts(s, CleanOf(s))
  {
    hide Listed, NormalizeEvent, MatchesAny, SettingsStart, Cleaned;
    SameListed(s);
    var w := BranchHook(s, branch);
    var name := NameOf(EventOf(w));
    StartsByRef(s, name, w);
    StartsByRef(CleanOf(s), name, w);
    assert SettingsStart(s, name, w, None) != SettingsStart(CleanOf(s), name, w, None);
  }

  lemma TagDiffers(s: Settings, tag: string)
    requires ListsTags(s)
    requires (NoFilter(s) || MatchesAny(s.tags, tag)) != (NoFilter(CleanOf(s)) || MatchesAny(Cleaned(s.tags), tag))
    ensures !SameStarts(s, CleanOf(s))
  {
    hide Listed, NormalizeEvent, MatchesAny, SettingsStart, Cleaned;
    SameListed(s);
    var name := NameOf(TagEvent);
    StartsByRef(s, name, Tag(tag));
    StartsByRef(CleanOf(s), name, Tag(tag));
    assert SettingsStart(s, name, Tag(tag), None) != SettingsStart(CleanOf(s), name, Tag(tag), None);
  }

  lemma LostFilterDiffers(s: Settings)
    requires !NoFilter(s) && NoFilter(CleanOf(s)) && (ListsBranches(s) || ListsTags(s))
    ensures !SameStarts(s, CleanOf(s))
  {
    hide Listed, MatchesAny, Cleaned, SameStarts;
    BlanksMatchNoLetter(s.branches);
    BlanksMatchNoLetter(s.tags);
    if ListsBranches(s) {
      BranchDiffers(s, "m");
    } else {
      TagDiffers(s, "m");
    }
  }

  lemma UnkeptDiffers(s: Settings)
    requires !RefsKept(s)
    ensures !SameStarts(s, CleanOf(s))
  {
    hide Listed, MatchesAny, Cleaned, SameStarts;
    if NoFilter(CleanOf(s)) {
      LostFilterDiffers(s);
    } else if ListsBranches(s) && !SameRefs(s.branches) {
      var branch: string :| MatchesAny(s.branches, branch) != MatchesAny(Cleaned(s.branches), branch);
      BranchDiffers(s, branch);
    } else {
      var tag: string :| MatchesAny(s.tags, tag) != MatchesAny(Cleaned(s.tags), tag);
      TagDiffers(s, tag);
    }
  }

  /** Of stored settings that map, exactly those whose refs are kept start the same webhooks
      when their globs are read clean. */
  lemma CleanStartsExact(s: Settings)
    requires MapTriggers(s).Mapped? && StoredPaths(s)
    ensures SameStarts(s, CleanOf(s)) <==> RefsKept(s)
  {
    hide MapTriggers, StoredPaths, SettingsStart, RefsKept, CleanOf, NormalizeEvent;
    if RefsKept(s) {
      forall eventType: string, w: Webhook, changed: Option<seq<string>> | NormalizeEvent(eventType) == Canonical(EventOf(w))
        ensures SettingsStart(s, eventType, w, changed) <==> SettingsStart(CleanOf(s), eventType, w, changed)
      {
        KeptStarts(s, eventType, w, changed);
      }
    } else {
      UnkeptDiffers(s);
    }
  }

  /** The lists in use hold no blank and no padded glob, and a filter stays a filter. */
  ghost predicate Unpadded(s: Settings) {
    || NoFilter(s)
    || (!ListsBranches(s) && !ListsTags(s))
    || (&& !NoFilter(CleanOf(s))
        && (ListsBranches(s) ==> AllClean(s.branches))
        && (ListsTags(s) ==> AllClean(s.tags)))
  }

  /** Unpadded globs are always kept; of globs without wildcards nothing else is. */
  lemma UnpaddedIsKept(s: Settings)
    ensures Unpadded(s) ==> RefsKept(s)
    ensures AllLiteral(s.branches) && AllLiteral(s.tags) ==> (RefsKept(s) <==> Unpadded(s))
  {
    hide Listed, SameRefs, AllClean, AllLiteral, Cleaned;
    SameRefsExact(s.branches);
    SameRefsExact(s.tags);
  }

  /** The mapped `on` and the settings as stored: for every webhook that is not a missed tag
      they agree exactly when the refs are kept. */
  lemma StoredTriggersExact(s: Settings)
    requires MapTriggers(s).Mapped? && StoredPaths(s)
    ensures RefsKept(s) <==>
      forall eventType: string, w: Webhook, changed: Option<seq<string>> | NormalizeEvent(eventType) == Canonical(EventOf(w)) ::
        (OnStarts(SpecOf(MapTriggers(s).on), w, changed) <==> SettingsStart(s, eventType, w, changed)) <==> !MissedTag(CleanOf(s), w)
  {
    hide MapTriggers, StoredPaths, SettingsStart, RefsKept, CleanOf, NormalizeEvent, OnStarts, SpecOf, MissedTag;
    CleanStartsExact(s);
    forall eventType: string, w: Webhook, changed: Option<seq<string>> | NormalizeEvent(eventType) == Canonical(EventOf(w))
      ensures (OnStarts(SpecOf(MapTriggers(s).on), w, changed) <==> SettingsStart(CleanOf(s), eventType, w, changed)) <==> !MissedTag(CleanOf(s), w)
    {
      MapTriggersExact(s, eventType, w, changed);
    }
  }

  // ── Settings that the daemon stores and mapping changes ─────────

  function PushOnly(branches: seq<string>): Settings {
    Settings([NameOf(PushEvent)], branches, [], [], [], [])
  }

  lemma PushOnlyLists(branches: seq<string>)
    ensures
      var s := PushOnly(branches);
      ListsBranches(s) && !Listed(s, Canonical(PullRequestEvent)) && StoredPaths(s) && MapTriggers(s).Mapped?
  {
    hide NormalizeEvent, Trim;
    ListedNames(PushOnly(branches), [PushEvent], PushEvent);
    ListedNames(PushOnly(branches), [PushEvent], PullRequestEvent);
  }

  lemma OneLiteral(branch: string)
    requires IsLiteral(branch) && !IsTrimmed(branch)
    ensures !RefsKept(PushOnly([branch]))
  {
    hide NormalizeEvent, Listed, MatchesAny, Cleaned, IsTrimmed, NameOf;
    var s := PushOnly([branch]);
    PushOnlyLists([branch]);
    SameRefsExact(s.branches);
    assert !AllClean(s.branches) by {
      assert s.branches[0] == branch;
    }
  }

  /** A blank branch glob: mapping drops it, which lets every branch in. */
  lemma BlankGlobDiffers()
    ensures MapTriggers(PushOnly([" "])).Mapped? && !SameStarts(PushOnly([" "]), CleanOf(PushOnly([" "])))
  {
    hide RefsKept, SameStarts, MapTriggers, CleanOf;
    BlankIsPadded();
    OneLiteral(" ");
    PushOnlyLists([" "]);
    CleanStartsExact(PushOnly([" "]));
  }

  /** A padded branch glob: the settings match it as written, the mapped `on` trimmed. */
  lemma PaddedGlobDiffers()
    ensures MapTriggers(PushOnly([" main"])).Mapped? && !SameStarts(PushOnly([" main"]), CleanOf(PushOnly([" main"])))
  {
    hide RefsKept, SameStarts, MapTriggers, CleanOf;
    BlankIsPadded();
    OneLiteral(" main");
    PushOnlyLists([" main"]);
    CleanStartsExact(PushOnly([" main"]));
  }

  /** A blank path glob, which the daemon does not store: the filter is lost too. */
  lemma BlankPathDiffers(s: Settings)
    requires s == PushOnly([]).(paths := [" "])
    ensures !StoredPaths(s) && !SameStarts(s, CleanOf(s))
  {
    hide NormalizeEvent, PathMatchesAny, Trim;
    SameListed(s);
    assert IsBlank(s.paths[0]) && Cleaned(s.paths) == [] by {
      BlankIsDropped();
    }
    PushOnlyLists([]);
    var name := NameOf(PushEvent);
    assert Listed(s, NormalizeEvent(name)) by {
      ListedNames(s, [PushEvent], PushEvent);
    }
    assert !SettingsStart(s, name, Push("m"), Some([])) && SettingsStart(CleanOf(s), name, Push("m"), Some([]));
  }

  lemma BlankIsDropped()
    ensures IsBlank(" ") && Cleaned([" "]) == [] && Cleaned([]) == []
  {
    assert IsSpace(' ');
    assert TrimStart(" ") == TrimStart(" "[1..]) == [];
    assert Cleaned([" "][1..]) == [];
  }

  lemma BlankIsPadded()
    ensures !IsTrimmed(" ") && !IsTrimmed(" main") && IsLiteral(" ") && IsLiteral(" main")
  {
    assert IsSpace(' ');
  }
}

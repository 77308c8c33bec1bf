/** Two trigger languages: a pipeline's trigger settings and a file's `on`, and the
    translations between them. */
module Triggers {
  import opened Wrappers
  import opened Text
  import opened Glob
  import opened PathGlob

  // ── Trigger settings ────────────────────────────────────────────

  /** `TriggerConfig`; `schedules` holds the cron schedules as written. */
  datatype Settings = Settings(
    events: seq<string>, branches: seq<string>, tags: seq<string>, paths: seq<string>,
    pathsIgnore: seq<string>, schedules: seq<string>)

  datatype Event = PushEvent | PullRequestEvent | TagEvent

  /** An event name after normalization: one of the three canonical names, or another. */
  datatype EventName = Canonical(event: Event) | OtherEvent(name: string)

  function LowerChar(c: char): char {
    if 'A' <= c <= 'Z' then (c as int + 32) as char else c
  }

  function Lower(s: string): string {
    seq(|s|, i requires 0 <= i < |s| => LowerChar(s[i]))
  }

  /** `TriggerConfig::normalize_event`. */
  function NormalizeEvent(name: string): EventName {
    var lower := Lower(name);
    if name == "Push Hook" || lower == "push" then Canonical(PushEvent)
    else if name == "Merge Request Hook" || lower == "pull_request" then Canonical(PullRequestEvent)
    else if name == "Tag Push Hook" || lower == "tag_push" then Canonical(TagEvent)
    else OtherEvent(lower)
  }

  /** The canonical names normalize to themselves. */
  function NameOf(e: Event): (name: string)
    ensures NormalizeEvent(name) == Canonical(e)
  {
    match e
    case PushEvent => assert Lower("push") == "push"; "push"
    case PullRequestEvent => assert Lower("pull_request") == "pull_request"; "pull_request"
    case TagEvent => assert Lower("tag_push") == "tag_push"; "tag_push"
  }

  predicate Listed(s: Settings, event: EventName) {
    s.events == [] || exists i :: 0 <= i < |s.events| && NormalizeEvent(s.events[i]) == event
  }

  predicate MatchesAny(patterns: seq<string>, reference: string) {
    exists i :: 0 <= i < |patterns| && GlobMatch(Utf8(patterns[i]), Utf8(reference))
  }

  predicate PathMatchesAny(patterns: seq<string>, file: string) {
    exists i :: 0 <= i < |patterns| && ChangedPathMatches(patterns[i], file)
  }

  /** `TriggerConfig::should_trigger`. */
  predicate ShouldTrigger(s: Settings, eventType: string, branch: Option<string>, tag: Option<string>) {
    && Listed(s, NormalizeEvent(eventType))
    && (if s.branches == [] && s.tags == [] then true
        else if tag.Some? then MatchesAny(s.tags, tag.value)
        else branch.Some? && MatchesAny(s.branches, branch.value))
  }

  /** `TriggerConfig::paths_match`; no change set is one that is not known. */
  predicate SettingsPathsMatch(s: Settings, changed: Option<seq<string>>) {
    || (s.paths == [] && s.pathsIgnore == [])
    || changed.None?
    || exists i :: 0 <= i < |changed.value|
                   && (s.paths == [] || PathMatchesAny(s.paths, changed.value[i]))
                   && !PathMatchesAny(s.pathsIgnore, changed.value[i])
  }

  // ── `on` ────────────────────────────────────────────────────────

  datatype BranchTrigger = Off | AllBranches | Branches(patterns: seq<string>)

  /** A file's `on`. */
  datatype TriggerSpec = TriggerSpec(
    push: Option<BranchTrigger>, pullRequest: Option<BranchTrigger>, tag: seq<string>, paths: seq<string>)

  predicate BranchMatches(t: BranchTrigger, branch: Option<string>) {
    match t
    case Off => false
    case AllBranches => true
    case Branches(patterns) => branch.Some? && MatchesAny(TrimAll(patterns), branch.value)
  }

  /** A webhook revision; a pull request has a source branch and a target branch. */
  datatype Webhook =
    | Push(branch: string)
    | PullRequest(source: Option<string>, target: Option<string>)
    | Tag(tag: string)

  /** `TriggerSpec::matches_ref`. */
  predicate MatchesRef(on: TriggerSpec, w: Webhook) {
    match w
    case Push(branch) => on.push.Some? && BranchMatches(on.push.value, Some(branch))
    case PullRequest(_, target) => on.pullRequest.Some? && BranchMatches(on.pullRequest.value, target)
    case Tag(tag) => MatchesAny(TrimAll(on.tag), tag)
  }

  /** `TriggerSpec::paths_match`. */
  predicate OnPathsMatch(on: TriggerSpec, changed: Option<seq<string>>) {
    || on.paths == []
    || changed.None?
    || exists i :: 0 <= i < |changed.value| && PathMatchesAny(on.paths, changed.value[i])
  }

  // ── Which webhooks start a build ────────────────────────────────

  function EventOf(w: Webhook): Event {
    match w
    case Push(_) => PushEvent
    case PullRequest(_, _) => PullRequestEvent
    case Tag(_) => TagEvent
  }

  /** The daemon's decision from trigger settings: path filters do not apply to tags. */
  predicate SettingsStart(s: Settings, eventType: string, w: Webhook, changed: Option<seq<string>>) {
    var branch := match w case Push(branch) => Some(branch) case PullRequest(source, _) => source case Tag(_) => None;
    var tag := match w case Tag(tag) => Some(tag) case _ => None;
    && ShouldTrigger(s, eventType, branch, tag)
    && (!w.Tag? && (s.paths != [] || s.pathsIgnore != []) ==> SettingsPathsMatch(s, changed))
  }

  /** The daemon's decision from a file's `on`. */
  predicate OnStarts(on: TriggerSpec, w: Webhook, changed: Option<seq<string>>) {
    MatchesRef(on, w) && (!w.Tag? && on.paths != [] ==> OnPathsMatch(on, changed))
  }

  // ── What the settings say ───────────────────────────────────────

  ghost predicate AllIgnored(s: Settings, files: seq<string>) {
    forall i :: 0 <= i < |files| ==> PathMatchesAny(s.pathsIgnore, files[i])
  }

  ghost predicate NoneIgnored(s: Settings, files: seq<string>) {
    forall i :: 0 <= i < |files| ==> !PathMatchesAny(s.pathsIgnore, files[i])
  }

  lemma PathsMatchIs(s: Settings, files: seq<string>)
    requires s.paths != [] || s.pathsIgnore != []
    ensures SettingsPathsMatch(s, Some(files)) <==>
      exists i :: 0 <= i < |files| && (s.paths == [] || PathMatchesAny(s.paths, files[i])) && !PathMatchesAny(s.pathsIgnore, files[i])
  {
    hide PathMatchesAny;
  }

  /** A change of ignored files only starts nothing. */
  lemma IgnoredChangeStartsNothing(s: Settings, eventType: string, w: Webhook, files: seq<string>)
    requires s.pathsIgnore != [] && AllIgnored(s, files) && !w.Tag?
    ensures !SettingsPathsMatch(s, Some(files)) && !SettingsStart(s, eventType, w, Some(files))
  {
    hide PathMatchesAny, ShouldTrigger;
  }

  /** Whether an ignored file is among the changes makes no difference. */
  lemma IgnoredFileChangesNothing(s: Settings, files: seq<string>, file: string)
    requires PathMatchesAny(s.pathsIgnore, file)
    ensures SettingsPathsMatch(s, Some(files + [file])) <==> SettingsPathsMatch(s, Some(files))
  {
    hide PathMatchesAny;
    assert s.pathsIgnore != [] by {
      MatchedIsListed(s.pathsIgnore, file);
    }
    var more := files + [file];
    PathsMatchIs(s, files);
    PathsMatchIs(s, more);
    assert forall i :: 0 <= i < |files| ==> more[i] == files[i];
    assert more[|files|] == file;
  }

  lemma MatchedIsListed(patterns: seq<string>, file: string)
    requires PathMatchesAny(patterns, file)
    ensures patterns != []
  {
    hide ChangedPathMatches;
  }

  /** Where nothing is ignored the filter is that of `paths` alone. */
  lemma UnignoredChange(s: Settings, files: seq<string>)
    requires files != [] && NoneIgnored(s, files)
    ensures SettingsPathsMatch(s, Some(files)) <==> SettingsPathsMatch(s.(pathsIgnore := []), Some(files))
    ensures s.paths == [] ==> SettingsPathsMatch(s, Some(files))
  {
    hide PathMatchesAny;
    var t := s.(pathsIgnore := []);
    assert forall file: string :: !PathMatchesAny(t.pathsIgnore, file) by {
      NothingMatches();
    }
    if s.paths == [] {
      assert !PathMatchesAny(s.pathsIgnore, files[0]);
    }
  }

  lemma NothingMatches()
    ensures forall file: string :: !PathMatchesAny([], file)
  {
  }

  /** With `paths` a change starts a build only through a file that is listed and not
      ignored. */
  lemma ListedFileStarts(s: Settings, files: seq<string>)
    requires s.paths != []
    ensures SettingsPathsMatch(s, Some(files)) <==>
      exists i :: 0 <= i < |files| && PathMatchesAny(s.paths, files[i]) && !PathMatchesAny(s.pathsIgnore, files[i])
  {
    hide PathMatchesAny;
  }

  /** A pull request is filtered by the branch it comes from: the target branch makes no
      difference, and it starts a build exactly when its source matches. */
  lemma PullRequestBySource(s: Settings, eventType: string, source: Option<string>, target: Option<string>,
                            other: Option<string>, changed: Option<seq<string>>)
    requires NormalizeEvent(eventType) == Canonical(PullRequestEvent)
    ensures SettingsStart(s, eventType, PullRequest(source, target), changed) <==> SettingsStart(s, eventType, PullRequest(source, other), changed)
    ensures s.branches != [] ==> (SettingsStart(s, eventType, PullRequest(source, target), changed) <==>
      && Listed(s, Canonical(PullRequestEvent)) && source.Some? && MatchesAny(s.branches, source.value)
      && ((s.paths == [] && s.pathsIgnore == []) || SettingsPathsMatch(s, changed)))
  {
    hide NormalizeEvent, MatchesAny, PathMatchesAny;
  }

  /** A branch filter alone turns tags off, and a tag filter alone turns branches off. */
  lemma OneFilterExcludesTheOther(s: Settings, eventType: string, w: Webhook, changed: Option<seq<string>>)
    requires SettingsStart(s, eventType, w, changed)
    ensures w.Tag? && s.branches != [] ==> s.tags != []
    ensures !w.Tag? && s.tags != [] ==> s.branches != []
  {
    hide NormalizeEvent, GlobMatch, PathMatchesAny;
  }

  // ── From settings to `on` ───────────────────────────────────────

  /** The `on` trigger settings map to; an empty `push` list is every branch. */
  datatype OnSpec = OnSpec(push: Option<seq<string>>, pullRequest: bool, tag: seq<string>, paths: seq<string>)

  datatype MapError = IgnoresPaths | PullRequestBranches

  datatype Mapped = Mapped(on: OnSpec) | Unmapped(error: MapError)

  /** The list helper of `map_triggers`: each pattern trimmed, blank ones dropped. */
  function Cleaned(patterns: seq<string>): seq<string> {
    if patterns == [] then []
    else (if Trim(patterns[0]) == [] then [] else [Trim(patterns[0])]) + Cleaned(patterns[1..])
  }

  /** `map_triggers`. */
  function MapTriggers(s: Settings): Mapped {
    var branches, tags, paths := Cleaned(s.branches), Cleaned(s.tags), Cleaned(s.paths);
    if Cleaned(s.pathsIgnore) != [] then Unmapped(IgnoresPaths)
    else if Listed(s, Canonical(PullRequestEvent)) && branches != [] then Unmapped(PullRequestBranches)
    else
      var everyRef := branches == [] && tags == [];
      var push := if Listed(s, Canonical(PushEvent)) && (everyRef || branches != []) then Some(branches) else None;
      var pullRequest := Listed(s, Canonical(PullRequestEvent)) && everyRef;
      var tag := if !Listed(s, Canonical(TagEvent)) then [] else if everyRef then ["*"] else tags;
      Mapped(OnSpec(push, pullRequest, tag, if push.Some? || pullRequest then paths else []))
  }

  /** The `on` a mapped spec is written as. */
  function SpecOf(on: OnSpec): TriggerSpec {
    TriggerSpec(
      if on.push.None? then None else if on.push.value == [] then Some(AllBranches) else Some(Branches(on.push.value)),
      if on.pullRequest then Some(AllBranches) else None, on.tag, on.paths)
  }

  /** `on_of`. */
  function OnOf(spec: TriggerSpec): OnSpec {
    OnSpec(
      match spec.push
      case Some(AllBranches) => Some([])
      case Some(Branches(branches)) => Some(branches)
      case _ => None,
      spec.pullRequest.Some? && !spec.pullRequest.value.Off?, spec.tag, spec.paths)
  }

  ghost predicate AllClean(patterns: seq<string>) {
    forall i :: 0 <= i < |patterns| ==> patterns[i] != [] && IsTrimmed(patterns[i])
  }

  ghost predicate CleanSettings(s: Settings) {
    AllClean(s.branches) && AllClean(s.tags) && AllClean(s.paths) && AllClean(s.pathsIgnore)
  }

  lemma {:induction false} CleanedClean(patterns: seq<string>)
    requires AllClean(patterns)
    ensures Cleaned(patterns) == patterns
  {
    if patterns != [] {
      TrimTrimmed(patterns[0]);
      CleanedClean(patterns[1..]);
      assert patterns == [patterns[0]] + patterns[1..];
    }
  }

  lemma TrimAllClean(patterns: seq<string>)
    requires AllClean(patterns)
    ensures TrimAll(patterns) == patterns
  {
    forall i | 0 <= i < |patterns| {
      TrimTrimmed(patterns[i]);
    }
  }

  /** A lone `*` matches every ref but one of at least two characters that starts with
      a `*` itself. */
  predicate LoneStarMatches(reference: string) {
    |reference| <= 1 || reference[0] != '*'
  }

  lemma {:induction false} StarRuns(value: seq<byte>, vi: nat, starVi: nat)
    requires starVi <= vi <= |value|
    ensures Greedy([STAR], value, 1, vi, Star(0, starVi))
    decreases |value| - starVi
  {
    if vi < |value| {
      StarRuns(value, starVi + 1, starVi + 1);
    } else {
      assert [STAR][1..] == [];
    }
  }

  lemma LoneStar(reference: string)
    ensures GlobMatch(Utf8("*"), Utf8(reference)) <==> LoneStarMatches(reference)
  {
    assert Utf8("*") == [STAR] by {
      assert EncodeChar('*') == [STAR];
      assert "*"[1..] == "";
    }
    var value := Utf8(reference);
    if reference == [] {
      assert [STAR][0..] == [STAR];
    } else {
      AsciiByte(reference[0], STAR);
      if reference[0] == '*' {
        assert value == [STAR] + Utf8(reference[1..]);
        assert [STAR][1..] == [];
        if |reference| > 1 {
          assert |Utf8(reference[1..])| > 0;
          assert !Greedy([STAR], value, 1, 1, NoStar);
        } else {
          assert reference[1..] == "" && value == [STAR];
        }
      } else {
        assert value[0] == EncodeChar(reference[0])[0];
        assert value[0] in EncodeChar(reference[0]);
        StarRuns(value, 0, 0);
      }
    }
  }

  lemma LoneStarMatchesAny(reference: string)
    ensures MatchesAny(["*"], reference) <==> LoneStarMatches(reference)
  {
    LoneStar(reference);
    if LoneStarMatches(reference) {
      assert GlobMatch(Utf8(["*"][0]), Utf8(reference));
    }
  }

  /** A tag the mapped `on` misses: the settings start on every tag, written as `*`. */
  predicate MissedTag(s: Settings, w: Webhook) {
    w.Tag? && Listed(s, Canonical(TagEvent)) && s.branches == [] && s.tags == [] && !LoneStarMatches(w.tag)
  }

  lemma CleanedSettings(s: Settings)
    requires CleanSettings(s)
    ensures Cleaned(s.branches) == s.branches && Cleaned(s.tags) == s.tags
    ensures Cleaned(s.paths) == s.paths && Cleaned(s.pathsIgnore) == s.pathsIgnore
    ensures TrimAll(s.branches) == s.branches && TrimAll(s.tags) == s.tags
  {
    CleanedClean(s.branches);
    CleanedClean(s.tags);
    CleanedClean(s.paths);
    CleanedClean(s.pathsIgnore);
    TrimAllClean(s.branches);
    TrimAllClean(s.tags);
  }

  /** Without ignored paths both languages filter the same change sets. */
  lemma SamePaths(s: Settings, on: TriggerSpec, changed: Option<seq<string>>)
    requires s.pathsIgnore == [] && on.paths == s.paths
    ensures SettingsPathsMatch(s, changed) <==> OnPathsMatch(on, changed)
  {
    assert forall file: string :: !PathMatchesAny([], file);
  }

  /** The tag list a mapped `on` gets, and what it matches. */
  lemma MappedTags(s: Settings, tag: string)
    requires CleanSettings(s) && MapTriggers(s).Mapped?
    ensures MatchesAny(TrimAll(MapTriggers(s).on.tag), tag) <==>
      && Listed(s, Canonical(TagEvent))
      && if s.branches == [] && s.tags == [] then LoneStarMatches(tag) else MatchesAny(s.tags, tag)
  {
    hide Listed, NormalizeEvent, Cleaned;
    CleanedSettings(s);
    if !Listed(s, Canonical(TagEvent)) {
      assert TrimAll([]) == [];
    } else if s.branches == [] && s.tags == [] {
      LoneStarMatchesAny(tag);
      TrimAllClean(["*"]);
    }
  }

  lemma ExactForTag(s: Settings, eventType: string, tag: string, changed: Option<seq<string>>)
    requires CleanSettings(s) && MapTriggers(s).Mapped?
    requires NormalizeEvent(eventType) == Canonical(TagEvent)
    ensures (OnStarts(SpecOf(MapTriggers(s).on), Tag(tag), changed) <==> SettingsStart(s, eventType, Tag(tag), changed)) <==> !MissedTag(s, Tag(tag))
  {
    MappedTags(s, tag);
    var on := MapTriggers(s).on;
    assert SpecOf(on).tag == on.tag;
  }

  lemma ExactForBranches(s: Settings, eventType: string, w: Webhook, changed: Option<seq<string>>)
    requires CleanSettings(s) && MapTriggers(s).Mapped?
    requires !w.Tag? && NormalizeEvent(eventType) == Canonical(EventOf(w))
    ensures OnStarts(SpecOf(MapTriggers(s).on), w, changed) <==> SettingsStart(s, eventType, w, changed)
  {
    hide Listed, NormalizeEvent, PathMatchesAny, Cleaned;
    CleanedSettings(s);
    var on := SpecOf(MapTriggers(s).on);
    if on.push.Some? || on.pullRequest.Some? {
      SamePaths(s, on, changed);
    }
  }

  lemma ExactForClean(s: Settings, eventType: string, w: Webhook, changed: Option<seq<string>>)
    requires CleanSettings(s) && MapTriggers(s).Mapped?
    requires NormalizeEvent(eventType) == Canonical(EventOf(w))
    ensures (OnStarts(SpecOf(MapTriggers(s).on), w, changed) <==> SettingsStart(s, eventType, w, changed)) <==> !MissedTag(s, w)
  {
    if w.Tag? {
      ExactForTag(s, eventType, w.tag, changed);
    } else {
      ExactForBranches(s, eventType, w, changed);
    }
  }

  /** The settings with their globs as mapping reads them: trimmed, without blank ones. */
  function CleanOf(s: Settings): Settings {
    s.(branches := Cleaned(s.branches), tags := Cleaned(s.tags), paths := Cleaned(s.paths), pathsIgnore := Cleaned(s.pathsIgnore))
  }

  lemma {:induction false} CleanedIsClean(patterns: seq<string>)
    ensures AllClean(Cleaned(patterns))
  {
    hide Trim, IsTrimmed;
    if patterns != [] {
      CleanedIsClean(patterns[1..]);
      TrimTrimmed(patterns[0]);
    }
  }

  /** Mapping sees settings only through their clean globs. */
  lemma MapOfClean(s: Settings)
    ensures CleanSettings(CleanOf(s)) && MapTriggers(CleanOf(s)) == MapTriggers(s)
  {
    hide Cleaned, AllClean, NormalizeEvent;
    CleanedIsClean(s.branches);
    CleanedIsClean(s.tags);
    CleanedIsClean(s.paths);
    CleanedIsClean(s.pathsIgnore);
    CleanedSettings(CleanOf(s));
    assert forall event :: Listed(CleanOf(s), event) == Listed(s, event);
  }

  /** For all settings: the mapped `on` starts exactly the webhooks the settings do with
      their globs read clean, apart from tags such as `*x`, which git does not allow as ref
      names. */
  lemma MapTriggersExact(s: Settings, eventType: string, w: Webhook, changed: Option<seq<string>>)
    requires MapTriggers(s).Mapped?
    requires NormalizeEvent(eventType) == Canonical(EventOf(w))
    ensures (OnStarts(SpecOf(MapTriggers(s).on), w, changed) <==> SettingsStart(CleanOf(s), eventType, w, changed)) <==> !MissedTag(CleanOf(s), w)
  {
    hide MapTriggers, OnStarts, SettingsStart, MissedTag, CleanOf, NormalizeEvent, CleanSettings;
    MapOfClean(s);
    ExactForClean(CleanOf(s), eventType, w, changed);
  }

  /** `on_of` reads back what is written. */
  lemma OnOfSpec(s: Settings)
    requires MapTriggers(s).Mapped?
    ensures OnOf(SpecOf(MapTriggers(s).on)) == MapTriggers(s).on
  {
  }

  // ── From `on` to settings ───────────────────────────────────────

  /** A normalized `on`: clean globs, and no path filter without an event it narrows. */
  ghost predicate NormalizedOn(on: OnSpec) {
    && (on.push.Some? ==> AllClean(on.push.value))
    && AllClean(on.tag) && AllClean(on.paths)
    && (on.push.None? && !on.pullRequest ==> on.paths == [])
  }

  predicate StartsNothing(on: OnSpec) {
    on.push.None? && !on.pullRequest && on.tag == []
  }

  datatype UnmapError = PullRequestWithBranches | PullRequestWithTags | PushWithTags | NothingStarts | PleaseReport

  datatype UnmapResult = Unmap(settings: Settings) | CannotUnmap(error: UnmapError)

  const EVERY_TAG: seq<string> := ["*"]

  /** Listing canonical event names lists exactly those events. */
  lemma ListedNames(s: Settings, names: seq<Event>, e: Event)
    requires names != [] && |s.events| == |names|
    requires forall i :: 0 <= i < |names| ==> s.events[i] == NameOf(names[i])
    ensures Listed(s, Canonical(e)) <==> e in names
  {
    forall i | 0 <= i < |names|
      ensures NormalizeEvent(s.events[i]) == Canonical(names[i])
    {
    }
    if e in names {
      var i :| 0 <= i < |names| && names[i] == e;
      assert NormalizeEvent(s.events[i]) == Canonical(e);
    }
  }

  function NamesOf(events: seq<Event>): (names: seq<string>)
    ensures |names| == |events|
    ensures forall i :: 0 <= i < |events| ==> names[i] == NameOf(events[i])
  {
    seq(|events|, i requires 0 <= i < |events| => NameOf(events[i]))
  }

  /** What settings made of clean lists and canonical events map to. */
  lemma MapOfNames(s: Settings, names: seq<Event>)
    requires names != [] && s.events == NamesOf(names)
    requires CleanSettings(s) && s.pathsIgnore == []
    requires PullRequestEvent in names ==> s.branches == []
    ensures
      var everyRef := s.branches == [] && s.tags == [];
      var push := if PushEvent in names && (everyRef || s.branches != []) then Some(s.branches) else None;
      var pullRequest := PullRequestEvent in names && everyRef;
      MapTriggers(s) == Mapped(OnSpec(push, pullRequest,
        if TagEvent !in names then [] else if everyRef then EVERY_TAG else s.tags,
        if push.Some? || pullRequest then s.paths else []))
  {
    CleanedSettings(s);
    ListedNames(s, names, PushEvent);
    ListedNames(s, names, PullRequestEvent);
    ListedNames(s, names, TagEvent);
  }

  /** What every mapped `on` looks like, whatever the settings: pull requests, or pushes
      to every branch, leave only every tag or none. */
  lemma MappedShape(s: Settings)
    requires MapTriggers(s).Mapped?
    ensures
      var on := MapTriggers(s).on;
      && (on.pullRequest ==> (on.push.Some? ==> on.push.value == []) && (on.tag == [] || on.tag == EVERY_TAG))
      && (on.push == Some([]) ==> on.tag == [] || on.tag == EVERY_TAG)
  {
  }

  /** The settings for an `on`, or why there are none: the base if it already maps to it,
      else the plainest settings that do. */
  function UnmapOf(on: OnSpec, base: Settings): UnmapResult {
    var everyTag := on.tag == EVERY_TAG;
    if MapTriggers(base) == Mapped(on) then Unmap(base)
    else if on.pullRequest then
      if on.push.Some? && on.push.value != [] then CannotUnmap(PullRequestWithBranches)
      else if on.tag != [] && !everyTag then CannotUnmap(PullRequestWithTags)
      else
        var events := (if on.push.Some? then [PushEvent] else []) + [PullRequestEvent] + (if everyTag then [TagEvent] else []);
        Unmap(Settings(NamesOf(events), [], [], on.paths, [], base.schedules))
    else if on.push.Some? && on.push.value != [] then
      Unmap(Settings(NamesOf([PushEvent] + (if on.tag != [] then [TagEvent] else [])), on.push.value, on.tag, on.paths, [], base.schedules))
    else if on.push.Some? then
      if on.tag != [] && !everyTag then CannotUnmap(PushWithTags)
      else Unmap(Settings(NamesOf([PushEvent] + (if everyTag then [TagEvent] else [])), [], [], on.paths, [], base.schedules))
    else if on.tag == [] then CannotUnmap(NothingStarts)
    else Unmap(Settings(NamesOf([TagEvent]), [], if everyTag then [] else on.tag, on.paths, [], base.schedules))
  }

  /** Settings for pull requests, or for pushes to every branch: no filters. */
  lemma PlainMaps(on: OnSpec, events: seq<Event>, s: Settings)
    requires NormalizedOn(on) && events != [] && s.events == NamesOf(events)
    requires s.branches == [] && s.tags == [] && s.paths == on.paths && s.pathsIgnore == []
    requires on.push == (if PushEvent in events then Some([]) else None) && (on.pullRequest <==> PullRequestEvent in events)
    requires on.tag == if TagEvent in events then EVERY_TAG else []
    ensures MapTriggers(s) == Mapped(on)
  {
    hide MapTriggers, NamesOf;
    MapOfNames(s, events);
  }

  /** Settings with a filter, for pushes to listed branches or for tags. */
  lemma FilteredMaps(on: OnSpec, events: seq<Event>, s: Settings)
    requires NormalizedOn(on) && events != [] && s.events == NamesOf(events) && PullRequestEvent !in events && !on.pullRequest
    requires s.branches == (if on.push.Some? then on.push.value else []) && s.tags == on.tag && s.paths == on.paths && s.pathsIgnore == []
    requires (on.push.Some? <==> PushEvent in events) && (on.push.Some? ==> on.push.value != [])
    requires (on.tag != [] <==> TagEvent in events) && (on.push.None? ==> on.tag != [])
    ensures MapTriggers(s) == Mapped(on)
  {
    hide MapTriggers, NamesOf;
    MapOfNames(s, events);
  }

  lemma UnmapMaps(on: OnSpec, base: Settings)
    requires NormalizedOn(on) && UnmapOf(on, base).Unmap?
    ensures MapTriggers(UnmapOf(on, base).settings) == Mapped(on) && UnmapOf(on, base).settings.schedules == base.schedules
  {
    hide MapTriggers, NamesOf, AllClean;
    var s := UnmapOf(on, base).settings;
    var everyTag := on.tag == EVERY_TAG;
    var tags := if everyTag then [TagEvent] else [];
    if MapTriggers(base) != Mapped(on) {
      if on.pullRequest {
        PlainMaps(on, (if on.push.Some? then [PushEvent] else []) + [PullRequestEvent] + tags, s);
      } else if on.push.Some? && on.push.value != [] {
        FilteredMaps(on, [PushEvent] + (if on.tag != [] then [TagEvent] else []), s);
      } else if on.push.Some? {
        PlainMaps(on, [PushEvent] + tags, s);
      } else if everyTag {
        PlainMaps(on, [TagEvent], s);
      } else {
        FilteredMaps(on, [TagEvent], s);
      }
    }
  }

  /** Apart from an `on` that starts nothing, a failure means that no settings map to it. */
  lemma UnmapRefuses(on: OnSpec, base: Settings)
    requires UnmapOf(on, base).CannotUnmap? && !StartsNothing(on)
    ensures forall s: Settings :: MapTriggers(s) != Mapped(on)
  {
    hide MapTriggers, NamesOf;
    forall s: Settings
      ensures MapTriggers(s) != Mapped(on)
    {
      if MapTriggers(s).Mapped? {
        MappedShape(s);
      }
    }
  }

  /** The plainest settings, built branch by branch. */
  method PlainestSettings(on: OnSpec, base: Settings) returns (r: UnmapResult)
    requires MapTriggers(base) != Mapped(on)
    ensures r == UnmapOf(on, base)
  {
    hide MapTriggers, NamesOf;
    var everyTag := on.tag == EVERY_TAG;
    var events: seq<Event> := [];
    var branches: seq<string> := [];
    var tags: seq<string> := [];
    if on.pullRequest {
      if on.push.Some? && on.push.value != [] {
        return CannotUnmap(PullRequestWithBranches);
      }
      if on.tag != [] && !everyTag {
        return CannotUnmap(PullRequestWithTags);
      }
      if on.push.Some? {
        events := events + [PushEvent];
      }
      events := events + [PullRequestEvent];
      if everyTag {
        events := events + [TagEvent];
      }
    } else if on.push.Some? && on.push.value != [] {
      events := events + [PushEvent];
      branches := on.push.value;
      if on.tag != [] {
        events := events + [TagEvent];
        tags := on.tag;
      }
    } else if on.push.Some? {
      if on.tag != [] && !everyTag {
        return CannotUnmap(PushWithTags);
      }
      events := events + [PushEvent];
      if everyTag {
        events := events + [TagEvent];
      }
    } else if on.tag == [] {
      return CannotUnmap(NothingStarts);
    } else {
      events := events + [TagEvent];
      if !everyTag {
        tags := on.tag;
      }
    }
    return Unmap(Settings(NamesOf(events), branches, tags, on.paths, [], base.schedules));
  }

  /** `unmap_triggers`: a success maps back to exactly this `on` and keeps the schedules;
      the final check never fails; and apart from an `on` that starts nothing, a failure
      means that no settings at all map to it. */
  method UnmapTriggers(on: OnSpec, base: Settings) returns (r: UnmapResult)
    requires NormalizedOn(on)
    ensures r.Unmap? ==> MapTriggers(r.settings) == Mapped(on) && r.settings.schedules == base.schedules
    ensures r != CannotUnmap(PleaseReport)
    ensures r.CannotUnmap? && !StartsNothing(on) ==> forall s: Settings :: MapTriggers(s) != Mapped(on)
    ensures MapTriggers(base) == Mapped(on) ==> r == Unmap(base)
    ensures r == UnmapOf(on, base)
  {
    hide MapTriggers, NormalizedOn;
    if MapTriggers(base) == Mapped(on) {
      return Unmap(base);
    }
    r := PlainestSettings(on, base);
    if r.CannotUnmap? {
      if !StartsNothing(on) {
        UnmapRefuses(on, base);
      }
      return;
    }
    UnmapMaps(on, base);
    if MapTriggers(r.settings) != Mapped(on) {
      return CannotUnmap(PleaseReport);
    }
  }

  // ── Listed events ───────────────────────────────────────────────

  /** No events listed is all three of them. */
  lemma NoEventsIsAll(s: Settings, eventType: string, w: Webhook, changed: Option<seq<string>>)
    requires NormalizeEvent(eventType) == Canonical(EventOf(w))
    ensures
      var every := NamesOf([PushEvent, PullRequestEvent, TagEvent]);
      SettingsStart(s.(events := []), eventType, w, changed) <==> SettingsStart(s.(events := every), eventType, w, changed)
    ensures MapTriggers(s.(events := [])) == MapTriggers(s.(events := NamesOf([PushEvent, PullRequestEvent, TagEvent])))
  {
    hide NormalizeEvent, MatchesAny, PathMatchesAny, NamesOf, Cleaned;
    var names := [PushEvent, PullRequestEvent, TagEvent];
    var every := s.(events := NamesOf(names));
    ListedNames(every, names, PushEvent);
    ListedNames(every, names, PullRequestEvent);
    ListedNames(every, names, TagEvent);
  }

  /** An event that is not listed starts nothing. */
  lemma UnlistedStartsNothing(s: Settings, names: seq<Event>, eventType: string, w: Webhook, changed: Option<seq<string>>)
    requires names != [] && s.events == NamesOf(names) && EventOf(w) !in names
    requires NormalizeEvent(eventType) == Canonical(EventOf(w))
    ensures !SettingsStart(s, eventType, w, changed)
  {
    hide NormalizeEvent, MatchesAny, PathMatchesAny, NamesOf;
    ListedNames(s, names, EventOf(w));
  }

  // ── When there is an `on` ───────────────────────────────────────

  ghost predicate HasGlob(patterns: seq<string>) {
    exists i :: 0 <= i < |patterns| && !IsBlank(patterns[i])
  }

  lemma {:induction false} CleanedEmpty(patterns: seq<string>)
    ensures Cleaned(patterns) != [] <==> HasGlob(patterns)
  {
    hide Trim;
    if patterns != [] {
      CleanedEmpty(patterns[1..]);
      assert forall i :: 1 <= i < |patterns| ==> patterns[i] == patterns[1..][i - 1];
      if HasGlob(patterns[1..]) {
        var i :| 0 <= i < |patterns| - 1 && !IsBlank(patterns[1..][i]);
        assert !IsBlank(patterns[i + 1]);
      }
    }
  }

  /** Only an ignored path, or a branch filter on pull requests, has no `on`. */
  lemma MapsUnless(s: Settings)
    ensures MapTriggers(s).Unmapped? <==> HasGlob(s.pathsIgnore) || (Listed(s, Canonical(PullRequestEvent)) && HasGlob(s.branches))
  {
    hide Cleaned, Listed, HasGlob;
    CleanedEmpty(s.pathsIgnore);
    CleanedEmpty(s.branches);
  }

  /** The second refusal is needed: pull requests filtered by the branch they come from cannot
      be said in any `on`, which filters by the branch they go to. */
  lemma BranchFilterHasNoOn(s: Settings, eventType: string, branch: string, on: TriggerSpec)
    requires NormalizeEvent(eventType) == Canonical(PullRequestEvent) && Listed(s, Canonical(PullRequestEvent))
    requires MatchesAny(s.branches, branch)
    ensures exists source, target ::
      SettingsStart(s, eventType, PullRequest(source, target), None) != OnStarts(on, PullRequest(source, target), None)
  {
    hide NormalizeEvent, MatchesAny, PathMatchesAny, Listed;
    assert s.branches != [] by {
      AnyMatched(s.branches, branch);
    }
    var known, unknown := PullRequest(Some(branch), None), PullRequest(None, None);
    assert SettingsStart(s, eventType, known, None) && !SettingsStart(s, eventType, unknown, None);
    assert OnStarts(on, known, None) <==> OnStarts(on, unknown, None);
  }

  lemma AnyMatched(patterns: seq<string>, reference: string)
    requires MatchesAny(patterns, reference)
    ensures patterns != []
  {
    hide GlobMatch;
  }

  /** An `on` filters pull requests by the branch they go to, never by where they come from,
      and an event that is off or missing starts nothing. */
  lemma OnByTarget(on: TriggerSpec, source: Option<string>, other: Option<string>, target: Option<string>, changed: Option<seq<string>>)
    ensures OnStarts(on, PullRequest(source, target), changed) <==> OnStarts(on, PullRequest(other, target), changed)
    ensures on.pullRequest == None || on.pullRequest == Some(Off) ==> !OnStarts(on, PullRequest(source, target), changed)
    ensures forall branch: string :: on.push == None || on.push == Some(Off) ==> !OnStarts(on, Push(branch), changed)
  {
    hide MatchesAny, PathMatchesAny;
  }

  // ── Event names ─────────────────────────────────────────────────

  /** The same letters, in upper or lower case. */
  predicate SameButCase(a: string, b: string) {
    && |a| == |b|
    && forall i :: 0 <= i < |a| ==>
      a[i] == b[i] || ('A' <= a[i] <= 'Z' && a[i] as int + 32 == b[i] as int) || ('A' <= b[i] <= 'Z' && b[i] as int + 32 == a[i] as int)
  }

  lemma SameLower(a: string, b: string)
    requires SameButCase(a, b)
    ensures Lower(a) == Lower(b)
  {
  }

  /** A name in capitals is the same event. */
  lemma CaseIsIgnored(name: string, event: Event)
    requires SameButCase(name, NameOf(event))
    ensures NormalizeEvent(name) == Canonical(event)
  {
    hide Lower, SameButCase;
    SameLower(name, NameOf(event));
    assert Lower("push") == "push" && Lower("pull_request") == "pull_request" && Lower("tag_push") == "tag_push" by {
      LowerNames();
    }
    EventNames(name);
  }

  lemma LowerNames()
    ensures Lower("push") == "push" && Lower("pull_request") == "pull_request" && Lower("tag_push") == "tag_push"
  {
  }

  /** The three events in any case, and GitLab's names for them. */
  lemma EventNames(name: string)
    ensures Lower(name) == "push" || name == "Push Hook" ==> NormalizeEvent(name) == Canonical(PushEvent)
    ensures Lower(name) == "pull_request" || name == "Merge Request Hook" ==> NormalizeEvent(name) == Canonical(PullRequestEvent)
    ensures Lower(name) == "tag_push" || name == "Tag Push Hook" ==> NormalizeEvent(name) == Canonical(TagEvent)
  {
    if Lower(name) == "pull_request" {
      assert Lower(name)[1] == 'u' && Lower(name)[2] == 'l' && "push"[2] == 's';
      assert |name| == 12;
    }
    if Lower(name) == "tag_push" {
      assert |name| == 8;
    }
  }
}

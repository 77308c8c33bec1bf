# Oore: verified models of the update transaction and the pipeline compiler

Dafny models of the four parts of Oore whose promises span many steps or many functions, with
proofs of what they promise.

- **Frontend update** (`apps/web/tools/oore-web.js`). An update stages new paths, journals a
  manifest, publishes by rename and rolls back or recovers after a crash. `UpdateDisk` is the
  disk with a fault schedule: each durable step may crash or fail before it, after it or, for
  removals and copies, halfway. `UpdateTransaction` is the invariant over disk and durable
  manifest. `UpdateHost` is the code, as methods of a `Host` whose fields are what survives a
  crash. `TreeSync` is the explicit-stack walk that makes a tree durable.
- **Pipeline compiler** (`crates/oore-contract/src/pipeline_*.rs`). `References` and `Expansion` are
  references and plain substitution; `Resolver` is the memoising, budgeted, cycle-detecting
  resolver, `CycleReports` the cycles it reports, `ExpansionCost` what plain substitution costs.
  `Lower` says what a version 2 file plans to, `LowerFile` is the code that uses the resolver,
  `PlanShape` and `ParsedPlans` are what every plan looks like, `WorkflowPlans` is what a workflow
  replaces, `FileChecks` is what parsing checks. `Plan` is the plan of version 1 files and form
  settings. `Convert`, `SharedBuild` and `Migrate` are the version 1 to version 2 migration,
  `Export` and `ExportSteps` the form exporter, `TargetInputs`, `ImportPlan`, `ImportTexts`,
  `ImportDraft`, `Import`, `ImportExport` and `ImportOutcome` the importer, `FormFields` and
  `ImportFields` the editor's form (`apps/web/src/lib`) that shows what was imported;
  `GeneratedFile`, `GeneratedChecks`, `GeneratedBehaviour`, `GeneratedNeeds`, `UserSteps`,
  `StepNames`, `NameFits` and `SecretText` are what migration and export share.
- **Matching and triggers** (`crates/oore-contract/src/lib.rs`, with export and import). `Glob` and
  `PathGlob` are the two greedy loops and path matching, `ArtifactPatterns` which patterns are
  accepted; `Triggers` is the translation between trigger settings and a file's `on`, both ways, and
  `StoredTriggers` when it is exact for settings as the daemon stores them.
- **Bundle manifests** (`crates/oore-google-play/src/aab.rs`). `Protobuf` and `AabManifest` are
  the varint and field decoder, its encoder and the manifest parser, after the Protocol Buffers
  Encoding guide, sections "Base 128 Varints" and "Message Structure".

Files are syntax trees, not YAML text. Code that updates state is a class or a method with loops,
proved against a function; the promises are lemmas about that function.

## What turned out false, and exactly when

The code is modelled as it is. Where a promise does not hold for every input, a lemma gives an
input, and another says for all inputs when it does hold.

- The greedy globs misjudge values with a literal `*` (`Glob.LiteralStarMisjudged`); they are
  exact for every pattern if and only if the value has none (`Glob.ExactIffNoLiteralStar`). So a
  mapped `on` misses exactly the tags of `Triggers.MissedTag`, which git does not allow as names.
- The mapped `on` reads trigger globs trimmed and drops blank ones, while the settings match them
  as stored, and the daemon stores blank and padded branches and padded tags
  (`StoredTriggers.BlankGlobDiffers`, `StoredTriggers.PaddedGlobDiffers`). For all settings the
  `on` is exact for the globs as read (`Triggers.MapTriggersExact`); it is exact for the settings
  as stored if and only if their refs are kept (`StoredTriggers.StoredTriggersExact`), which
  unpadded globs always are, and of globs without wildcards no others
  (`StoredTriggers.UnpaddedIsKept`).
- The migrator's "would build differently; please report this" is reached by every file whose
  artifact list is written out empty (`Counterexamples.NoArtifactsDiffer`; a file that leaves
  `artifacts` out gets the defaults when it is parsed), and its "does not validate; please report
  this" by step names that are cut at sixty characters but limited in bytes
  (`Counterexamples.LongNameIsInvalid`); `Migrate.MigrationOutcome` has the exact condition.
- The exporter's "would build differently; please report this" is reached by a blank artifact
  pattern (`Counterexamples.BlankPatternDiffers`) and by a blank before the Play bundle
  (`Counterexamples.TrailingBlankDiffers`), and by nothing else (`Export.ExportOutcome`).
- The importer passes the exporter's reports on. It reaches them with a blank pattern in the
  editor's list (`ImportCounterexamples.BlankListImport`), with a blank Android argument in the
  editor (`ImportCounterexamples.BlankArgumentImport`), and an invalid file with a command whose
  derived name is too long (`ImportCounterexamples.LongNameImport`).
  `ImportOutcome.ImportOutcome` tells every outcome from the file's plan and the editor's settings:
  its own "please report this" differences are never reached.
- The form shows an import as the text of its fields, one pattern or path glob a line, and nothing
  refuses a pattern with a line break in it (`ImportCounterexamples.BrokenPatternImport`). Settings
  read from a file come back from the form if and only if no pattern has one
  (`ImportFields.ImportedComesBack`), trigger settings if and only if no path glob has one
  (`ImportFields.ReadTriggersComeBack`).

## Model

| member | source | states |
|---|---|---|
| UpdateHost.Host.Rename | apps/web/tools/oore-web.js:1603-1610 | a rename happens as a whole or not at all, touches one path, and fails by itself only when it cannot be done |
| UpdateHost.Host.Remove | apps/web/tools/oore-web.js:1595-1601 | a recursive removal may stop anywhere; it touches one place of one path and leaves nothing when it completes |
| UpdateHost.Host.WriteManifest | apps/web/tools/oore-web.js:1627-1640 | after an interrupted write the durable manifest is the old one or the new one, never a mix |
| UpdateHost.Host.RemoveRoot | apps/web/tools/oore-web.js:1916-1957 | dropping the transaction directory never touches an installed path, whatever part of it is left |
| UpdateHost.Host.Publish | apps/web/tools/oore-web.js:1789-1822 | publishing one path raises none of its own errors; interrupted anywhere, the path is still staged, moved aside or published; completed, it is published with its original preserved; a single call that fails without effect leaves the original installed |
| UpdateHost.Host.SwapIn | apps/web/tools/oore-web.js:1824-1847 | swapping a directory in ends with the original put back, or interrupted with the preserved copy untouched; a single call that fails without effect leaves installed what was |
| UpdateHost.Host.ReplaceFromPreserved | apps/web/tools/oore-web.js:1824-1847 | the same for files and directories, and the source is never found invalid |
| UpdateHost.Host.Restore | apps/web/tools/oore-web.js:1849-1896 | from any state a publish or an interrupted restore leaves, none of "unexpected path", "cannot verify", "source is missing" or "is incomplete" is raised, the path stays restorable, completion puts the original back and leaves the path settled, and a restore of a settled path changes nothing |
| UpdateHost.Host.RestoreEntry | apps/web/tools/oore-web.js:1898-1914 | one turn of the rollback loop keeps the invariant at every durable step and settles exactly its own entry |
| UpdateHost.Host.Rollback | apps/web/tools/oore-web.js:1898-1914 | a completed rollback is durably rolled back; an interrupted one never changes the decision to anything but the original |
| UpdateHost.Host.Recover | apps/web/tools/oore-web.js:1916-1957 | recovery raises no error of its own, keeps the decision however it is interrupted, and completed leaves exactly the decided installation and no transaction; it reports an interruption exactly for committing and rolling back, and without a transaction it does nothing |
| UpdateHost.Host.Prepare | apps/web/tools/oore-web.js:1959-2021 | preparing changes nothing installed, refuses a second transaction, and journals only a complete staging with every entry pending; a single failure leaves at most an empty transaction behind |
| UpdateHost.Host.PublishAll | apps/web/tools/oore-web.js:2023-2055 | publishing entries in order keeps the journal and the disk together at every step and ends committed with every target new |
| UpdateHost.Host.Commit | apps/web/tools/oore-web.js:2023-2055 | success is the complete update; a failure is undone: with at most one fault in the schedule every target is the original, and if the transaction directory is still there nothing at all was changed; with none the commit succeeds; however many there are, the decision is all original or all new |
| UpdateHost.Host.Update | apps/web/tools/oore-web.js:2321-2396 | recover, prepare, commit: whatever happens the decision is the old one or the whole update, and a reported success is the whole update; a failure with at most one fault leaves what was installed, and without faults the update is installed and the transaction gone |
| UpdateHost.Host.RecoverFully | apps/web/tools/oore-web.js:1916-1957 | recoveries that may each crash end, because faults do, with exactly the decided installation |
| UpdateHost.Host.Session | apps/web/tools/oore-web.js:1789-2055 | all or nothing over whole runs: after any updates and recoveries, each crashing or failing anywhere, exactly some of the updates are installed, whole and in order, every reported success among them |
| UpdateTransaction.OriginalNeverLost | apps/web/tools/oore-web.js:1849-1914 | until the journal says committed, each original is whole in its target, displaced copy or backup |
| UpdateTransaction.JournalStep | apps/web/tools/oore-web.js:1898-1914 | a journalled state that fits the disk keeps the invariant |
| UpdateTransaction.DiskStep | apps/web/tools/oore-web.js:1789-1896 | a step on one path that keeps its entry's state keeps the invariant of the whole transaction |
| UpdateTransaction.AllPublished | apps/web/tools/oore-web.js:2023-2055 | with every entry published the installation is exactly the update |
| UpdateTransaction.AllOriginal | apps/web/tools/oore-web.js:1898-1914 | with every entry pending or restored the installation is exactly the original |
| UpdateTransaction.DescribedIsValid | apps/web/tools/oore-web.js:1725-1787 | a manifest this code writes always passes its own validation |
| TreeSync.SyncTree | apps/web/tools/oore-web.js:1687-1709 | the explicit-stack walk terminates and syncs exactly the recursive post-order |
| TreeSync.SyncsExactly | apps/web/tools/oore-web.js:1687-1709 | a path is synced if and only if the tree holds it |
| TreeSync.SyncIsDurable | apps/web/tools/oore-web.js:1687-1709 | every path once, and a directory only after everything below it |
| Glob.GlobMatchInner | crates/oore-contract/src/lib.rs:1579-1605 | the loop terminates, answers as the shared specification, and for values without `*` exactly as the declarative matcher |
| Glob.SegmentMatches | crates/oore-contract/src/lib.rs:3798-3820 | the second copy of the loop gives the same answer on every input |
| Glob.GreedyMeaning | crates/oore-contract/src/lib.rs:1579-1605 | from any loop state: true exactly when the rest matches from here or from a later end of the last star's run, so retrying only the last star loses nothing |
| Glob.GreedyIsExact | crates/oore-contract/src/lib.rs:1579-1605 | without a literal `*` the loop is the declarative matcher |
| Glob.LiteralStarMisjudged | crates/oore-contract/src/lib.rs:1579-1605 | against every value with a `*` some pattern that matches is refused |
| Glob.ExactIffNoLiteralStar | crates/oore-contract/src/lib.rs:1579-1605 | the loop is right for every pattern if and only if the value has no `*` |
| PathGlob.PathMatchesMeaning | crates/oore-contract/src/lib.rs:3822-3846 | a path matches if and only if it splits so that each plain segment matches one segment and each `**` any run |
| PathGlob.TrailingRun | crates/oore-contract/src/lib.rs:3822-3846 | a final `**` accepts exactly the paths with a matching beginning |
| PathGlob.DirectoryPattern | crates/oore-contract/src/lib.rs:1678-1684 | a pattern ending in `/` matches exactly the paths with a beginning that matches the directory |
| PathGlob.PlainDirectoryPattern | crates/oore-contract/src/lib.rs:1678-1684 | without `**` in the directory: exactly the paths whose leading segments match it |
| PathGlob.NameAnywhere | crates/oore-contract/src/lib.rs:3836-3846 | a pattern without `/` matches exactly the paths that `**/` and the pattern match |
| PathGlob.NameMatches | crates/oore-contract/src/lib.rs:1674-1684 | it matches exactly by the file name, in whatever directory |
| PathGlob.LoneDoubleStar | crates/oore-contract/src/lib.rs:3836-3846 | a lone `**` is a file name glob too, and matches as `*` does |
| ArtifactPatterns.PatternStaysInside | crates/oore-contract/src/lib.rs:3751-3772 | a pattern is accepted exactly when it is short, has a wildcard and no backslash, and walking its segments goes one directory further into the workspace each time |
| ArtifactPatterns.DefaultsCollect | crates/oore-contract/src/lib.rs:3573-3588 | each platform's default patterns match every file of its kind where `flutter build` writes it, bundles at any depth, unless its name has a `*` |
| Triggers.MapOfClean | crates/oore-contract/src/pipeline_export.rs:476-521 | for all settings, mapping sees them only through their globs read clean |
| Triggers.EventNames | crates/oore-contract/src/lib.rs:1565-1572 | each provider's name for an event is that event |
| Triggers.CaseIsIgnored | crates/oore-contract/src/lib.rs:1565-1572 | and so is its canonical name in any mix of cases |
| Triggers.NoEventsIsAll | crates/oore-contract/src/lib.rs:1613-1629 | settings that list no events start and map as with all three listed |
| Triggers.UnlistedStartsNothing | crates/oore-contract/src/lib.rs:1613-1629 | an event that is not listed starts nothing |
| Triggers.IgnoredChangeStartsNothing | crates/oore-contract/src/lib.rs:1644-1665 | for all settings, a push or pull request that changes only ignored files starts nothing |
| Triggers.IgnoredFileChangesNothing | crates/oore-contract/src/lib.rs:1644-1665 | an ignored file among the changes never changes the answer |
| Triggers.UnignoredChange | crates/oore-contract/src/lib.rs:1644-1665 | where nothing changed is ignored the answer is that of `paths` alone |
| Triggers.PullRequestBySource | crates/oore-contract/src/lib.rs:1613-1642 | settings filter a pull request by its source branch; the target makes no difference |
| Triggers.OneFilterExcludesTheOther | crates/oore-contract/src/lib.rs:1607-1642 | a branch filter alone turns tags off, and a tag filter alone turns branches off |
| Triggers.OnByTarget | crates/oore-contract/src/pipeline_config.rs:1288-1324 | an `on` filters a pull request by its target branch only, and an event that is off or missing starts nothing |
| Triggers.MapsUnless | crates/oore-contract/src/pipeline_export.rs:476-521 | settings have an `on` unless a path is ignored or pull requests are filtered by branch, blank globs aside |
| Triggers.BranchFilterHasNoOn | crates/oore-contract/src/pipeline_export.rs:476-521 | that refusal is needed: pull requests filtered by a branch that some name matches are started alike by no `on` at all |
| Triggers.MapTriggersExact | crates/oore-contract/src/pipeline_export.rs:476-521 | for all settings that map, the `on` starts a build for a push, pull request or tag, with known or unknown changed files, exactly when the settings do with their globs read clean, if and only if the webhook is not one of the tags a lone `*` misses |
| StoredTriggers.SameRefsExact | crates/oore-contract/src/lib.rs:1579-1605 | clean globs match the same refs when read clean; of lists without wildcards only the clean ones do |
| StoredTriggers.CleanStartsExact | crates/oored/src/pipelines.rs:256-286 | stored settings that map start the same webhooks when read clean if and only if there is no ref filter, no event to filter, or the filter stays one and each list in use matches the same refs |
| StoredTriggers.UnpaddedIsKept | crates/oored/src/pipelines.rs:256-286 | refs are kept without blank and padded globs in the lists in use, and with globs without wildcards only then |
| StoredTriggers.StoredTriggersExact | crates/oore-contract/src/pipeline_export.rs:476-521 | the mapped `on` and the settings as stored agree on every webhook that is not a missed tag if and only if the refs are kept |
| StoredTriggers.BlankGlobDiffers | crates/oore-contract/src/pipeline_export.rs:476-521 | a stored blank branch glob maps to an `on` that starts other webhooks |
| StoredTriggers.PaddedGlobDiffers | crates/oore-contract/src/pipeline_export.rs:476-521 | so does a branch glob with a blank before it |
| StoredTriggers.BlankPathDiffers | crates/oored/src/pipelines.rs:262-286 | so would a blank path glob, which the daemon refuses to store |
| Triggers.OnOfSpec | crates/oore-contract/src/pipeline_export.rs:654-669 | reading a written `on` back gives the mapped one |
| Triggers.MappedShape | crates/oore-contract/src/pipeline_export.rs:476-521 | pull requests, or pushes to every branch, leave only every tag or none in any mapped `on` |
| Triggers.UnmapMaps | crates/oore-contract/src/pipeline_import.rs:629-702 | the settings chosen for an `on` map back to exactly it and keep the schedules |
| Triggers.UnmapRefuses | crates/oore-contract/src/pipeline_import.rs:629-702 | when none are chosen for an `on` that starts something, no settings at all map to it |
| Triggers.UnmapTriggers | crates/oore-contract/src/pipeline_import.rs:629-702 | a success maps back to exactly this `on` and keeps the schedules; the final "please report this" branch is never taken; apart from an `on` that starts nothing, a failure means no settings at all map to it; settings that already map are kept; the result is the specified one |
| References.ParseExpressions | crates/oore-contract/src/pipeline_config.rs:1412-1445 | the spans found are ordered, disjoint and in bounds, and each var range denotes exactly the trimmed name |
| References.ParseSecretReferences | crates/oore-contract/src/lib.rs:4426-4453 | whatever it accepts, the general parser reads as the same spans, all of them secrets |
| References.WordRange | crates/oore-contract/src/pipeline_config.rs:1412-1445 | searching for `vars.` after the opening finds the trimmed body's own, so the range is the name |
| References.ReferencesAre | crates/oore-contract/src/pipeline_config.rs:1412-1445 | a reference is exactly `flavor`, `secrets.` and a key or `vars.` and a key, blanks around it aside |
| References.SecretsAreExpressions | crates/oore-contract/src/pipeline_config.rs:1412-1445 | from any cursor, accepted secret text is parsed to the same all-secret spans |
| Expansion.ExpandsOnce | crates/oore-contract/src/pipeline_config.rs:1551-1669 | a text has at most one plain expansion |
| Expansion.CycleFails | crates/oore-contract/src/pipeline_config.rs:1597-1646 | a var on a reference cycle has no expansion at any depth |
| Expansion.ReachingACycleNeverExpands | crates/oore-contract/src/pipeline_config.rs:1597-1646 | no text that reaches a cycle expands |
| Expansion.RotatedCycle | crates/oore-contract/src/pipeline_config.rs:1597-1615 | a cycle reported from another of its names is the same genuine cycle |
| Resolver.Resolver.Value | crates/oore-contract/src/pipeline_config.rs:1616-1646 | a var's value, cached or not, is its plain expansion in its scope; only vars outside the chain are cached |
| Resolver.Resolver.PayFor | crates/oore-contract/src/pipeline_config.rs:1616-1650 | one var is charged one expansion and its value's bytes; the limits are reported exactly past 250000 expansions or 4 MiB, and no more is spent than plain substitution costs |
| Resolver.Resolver.ResolveVar | crates/oore-contract/src/pipeline_config.rs:1597-1650 | a reported cycle is genuine and an undefined var has no expansion; a limit that is reported was reached in expanding this var; the names left outside the chain are the termination measure |
| Resolver.Resolver.ResolveInner | crates/oore-contract/src/pipeline_config.rs:1551-1669 | the result is the plain expansion, independent of cache and chain; the budget stays within the limits and the text within 64 KiB or its source; at most the cost of plain substitution is spent; an error says what is wrong in this text or a var's, and a limit that is reported was reached |
| Resolver.Resolver.Resolve | crates/oore-contract/src/pipeline_config.rs:1535-1539 | an answer is the plain expansion whatever was resolved before; an error that is not a limit means there is none and names the malformed text, the missing flavor, the undefined var or a genuine cycle; a text whose cost fits what is left of the budget and whose texts on the way fit 64 KiB is answered |
| Resolver.Resolver.ResolveAll | crates/oore-contract/src/pipeline_config.rs:1533-1669 | over any sequence of resolves sharing cache and budget every answer is its own text's expansion, and while all succeed expansions and bytes stay within the limits and cache misses within vars times scopes; a limit that is reported was reached, and requests whose costs together fit the budget are all answered |
| Resolver.ClosedChain | crates/oore-contract/src/pipeline_config.rs:1597-1615 | a name already in the chain closes a genuine cycle, as reported, and has no expansion |
| Resolver.AffordableIsOk | crates/oore-contract/src/pipeline_config.rs:1616-1667 | a result for a text that expands, whose cost fits the budget and whose texts on the way fit, is no error |
| ExpansionCost.FitIsNeverOverlong | crates/oore-contract/src/pipeline_config.rs:1652-1667 | a text whose expansion and every var's on the way stay within 64 KiB or their source is never too long, at any depth |
| CycleReports.ReportedOnce | crates/oore-contract/src/pipeline_config.rs:1599-1608 | whichever of its names a cycle is entered at, the report is the same |
| Resolver.CacheBound | crates/oore-contract/src/pipeline_config.rs:1616-1646 | however vars refer to each other, the cache holds each var at most once per scope |
| Resolver.SecretTextUnchanged | crates/oore-contract/src/pipeline_config.rs:1551-1669 | text with only secret references resolves to itself |
| Lower.AnswersAreResolution | crates/oore-contract/src/pipeline_config.rs:1535-1539 | every answer of the stateful resolver that is not a limit is the plain resolution |
| LowerFile.LowerTargetBuilds | crates/oore-contract/src/pipeline_config.rs:2469-2497 | the build loops give one build per target and flavor, resolved by plain substitution, or an error exactly when one does not resolve |
| LowerFile.LowerStepEntries | crates/oore-contract/src/pipeline_config.rs:2499-2578 | the step loop places the builds once and resolves the steps, or fails exactly when a name is used twice or a command does not resolve |
| LowerFile.LowerArtifacts | crates/oore-contract/src/pipeline_config.rs:2611-2655 | the pattern loops collect each resolved pattern once, or fail exactly when one does not resolve to a valid pattern without secrets |
| LowerFile.LowerWorkflow | crates/oore-contract/src/pipeline_config.rs:2164-2690 | unless a limit is reached, the plan is the plan by plain substitution, errors mean there is none (or that a var tried out does not resolve), and a plan keeps the budget within its limits; a limit that is reported was reached on the file's own vars, builds, steps, env or patterns |
| LowerFile.OverlayKeys | crates/oore-contract/src/pipeline_config.rs:2180-2202 | after a workflow's vars are laid over the top-level ones each name stands once |
| WorkflowPlans.SelectsNamed | crates/oore-contract/src/pipeline_config.rs:2131-2162 | a name selects exactly the workflow of that name; without one the file's only workflow is selected, and several are an error |
| WorkflowPlans.OverlayTable | crates/oore-contract/src/pipeline_config.rs:2180-2202 | as a table, a workflow's vars or env over the top-level ones are the top-level table updated by the workflow's |
| WorkflowPlans.OverlayPlaces | crates/oore-contract/src/pipeline_config.rs:2180-2202 | top-level names keep their places; new ones only follow |
| WorkflowPlans.WorkflowEnvWins | crates/oore-contract/src/pipeline_config.rs:2580-2605 | in the plan of any workflow each env key carries the resolution of the workflow's own value, or of the top-level one where the workflow has none |
| WorkflowPlans.WorkflowTargetsAre | crates/oore-contract/src/pipeline_config.rs:2225-2287 | a workflow's targets keep their order, each with its own build and artifacts where it has them and the top-level ones where not |
| WorkflowPlans.WorkflowTargetsNeedBuilds | crates/oore-contract/src/pipeline_config.rs:2228-2245 | there are none exactly when one has no build, neither its own nor a top-level one |
| WorkflowPlans.TopTargetsHave | crates/oore-contract/src/pipeline_config.rs:2288-2313 | without a workflow every top-level target with a build is one |
| WorkflowPlans.BadSelectionFails | crates/oore-contract/src/pipeline_config.rs:2315-2332 | a selection that is empty, repeats a platform or names one without a target gives no plan |
| WorkflowPlans.PlanBuildsEach | crates/oore-contract/src/pipeline_config.rs:2469-2497 | for each target and flavor the plan has a build of that platform and flavor, running the target's command resolved in that flavor |
| WorkflowPlans.ReferenceFinds | crates/oore-contract/src/pipeline_config.rs:2499-2578 | a reference stands for a top-level step of its name and for nothing exactly when there is none |
| WorkflowPlans.PlanRunsSteps | crates/oore-contract/src/pipeline_config.rs:2499-2578 | every step listed, or referred to, runs in the plan under its own name, resolved outside flavors |
| PlanShape.PlanIsShaped | crates/oore-contract/src/pipeline_config.rs:2469-2578 | every plan has steps before the builds, exactly one build per target and flavor, steps after, and no name twice |
| ParsedPlans.ParsedPlanIsShaped | crates/oore-contract/src/pipeline_config.rs:2047-2130 | what parsing guarantees of a file's mappings and flavor lists makes every plan of it well shaped, for any workflow and selection |
| ParsedPlans.ValidIsParsed | crates/oore-contract/src/pipeline_config.rs:2047-2130 | a valid file without workflows has those guarantees |
| Expansion.AnyFlavor | crates/oore-contract/src/pipeline_config.rs:1551-1669 | whether a text expands, at any depth, does not depend on which flavor it is expanded in |
| ParsedPlans.VarsFitEveryFlavor | crates/oore-contract/src/pipeline_config.rs:2203-2222 | trying each var out with one stand-in flavor is enough: in a valid file every var resolves in every flavor |
| ParsedPlans.EveryEntryCounts | crates/oore-contract/src/pipeline_config.rs:2499-2578 | in the steps of a valid file no entry is without effect: each adds its step or, where `build` stands, the builds |
| PlanShape.SelectionFiltersBuilds | crates/oore-contract/src/pipeline_config.rs:2315-2332 | planning a valid selection succeeds whenever the full plan does and only drops the other platforms' builds |
| Labels.NormalizedLabels | crates/oore-contract/src/lib.rs:2103-2133 | normalized labels ascend strictly, are exactly the normalized ones given, and normalize to themselves |
| Labels.SpellingsAgree | crates/oore-contract/src/lib.rs:2103-2133 | upper and lower case spellings, with or without blanks around, are one label |
| Labels.EachIs | crates/oore-contract/src/lib.rs:2103-2133 | each label is normalized on its own, in its place |
| Labels.RefusedLabels | crates/oore-contract/src/lib.rs:2103-2133 | a list is refused exactly when it has more than 32 labels or one that cannot be normalized |
| Plan.PlanExecution | crates/oore-contract/src/pipeline_config.rs:679-765 | the loops give the specified plan of settings |
| Plan.SettingsRun | crates/oore-contract/src/pipeline_config.rs:679-765 | what settings run, phase by phase and in order, apart from step names |
| Plan.CollectUnique | crates/oore-contract/src/pipeline_migrate.rs:596-603 | each trimmed pattern once, where it first stands |
| Plan.BundleArgsAre | crates/oore-contract/src/pipeline_config.rs:658-670 | the Play bundle never gets `--split-per-abi`, keeps every other argument as often as given, and all of them where it is not among them |
| Plan.BundleArgsConcat | crates/oore-contract/src/pipeline_config.rs:658-670 | and keeps them in order |
| Plan.BehaviourTells | crates/oore-contract/src/pipeline_migrate.rs:596-633 | two plans with the same behaviour differ in nothing but names, blanks around texts and repeated patterns |
| StepNames.TakeUniqueName | crates/oore-contract/src/pipeline_migrate.rs:442-450 | the loop terminates (a finite set cannot hold every numbered name) with a name that was free, now taken |
| StepNames.AttemptsFit | crates/oore-contract/src/pipeline_migrate.rs:442-450 | pigeonhole: at most as many numbered names are taken as there are names |
| StepNames.StepNameIsName | crates/oore-contract/src/pipeline_migrate.rs:425-440 | a derived name is never empty and has no blanks around it |
| StepNames.CollapsedIs | crates/oore-contract/src/pipeline_migrate.rs:425-440 | the name is made of exactly the words of the first line, one blank between them |
| StepNames.StepNameTells | crates/oore-contract/src/pipeline_migrate.rs:425-440 | a name that is not a known one is those words, cut at sixty characters, marked with three dots exactly when it was cut or there are more lines |
| NameFits.PrintableNamesFit | crates/oore-contract/src/pipeline_migrate.rs:425-450 | commands whose first line is printable ASCII always get names that version 2 accepts |
| NameFits.DerivedNameExact | crates/oore-contract/src/pipeline_migrate.rs:425-440 | a derived name is refused exactly when it is over a hundred bytes or one of the first sixty characters of the command's words is a control character |
| NameFits.LongDerivedName | crates/oore-contract/src/pipeline_migrate.rs:425-440 | sixty three-byte characters make a name that version 2 refuses |
| UserSteps.NameSteps | crates/oore-contract/src/pipeline_migrate.rs:241-254 | the closure names steps in order and grows the set by exactly their names |
| UserSteps.StepsForAre | crates/oore-contract/src/pipeline_migrate.rs:241-254 | steps run the trimmed commands in order under pairwise distinct names, none of them taken before |
| Convert.ConvertSettings | crates/oore-contract/src/pipeline_migrate.rs:86-380 | the conversion loops give the specified file, and refuse exactly repeated platforms and patterns with `${{` |
| SharedBuild.SharedIsTrimmed | crates/oore-contract/src/pipeline_migrate.rs:406-423 | a joined shared build has no blanks around it, so planning does not change it |
| SharedBuild.JoinedOfTrimmed | crates/oore-contract/src/pipeline_migrate.rs:406-423 | joining what version 1 ran is joining what was written |
| SharedBuild.JoinedSecret | crates/oore-contract/src/pipeline_migrate.rs:406-423 | joining commands makes no new reference |
| Convert.SharedWith | crates/oore-contract/src/pipeline_migrate.rs:406-423 | each further command is one more subshell that runs only if the ones before succeed |
| SharedBuild.ReplaceBuilds | crates/oore-contract/src/pipeline_migrate.rs:656-680 | the edit of the expected steps puts one joined build where the first build stood |
| SharedBuild.OneBuildInPlace | crates/oore-contract/src/pipeline_migrate.rs:656-680 | on a plan in phase order the edit replaces exactly the builds |
| Migrate.ConvertedBehaviour | crates/oore-contract/src/pipeline_migrate.rs:639-688 | planning the converted file gives the version 1 behaviour in everything, with a shared build as the first platform's one build, except that an empty artifact list becomes the defaults |
| Migrate.MigrationOutcome | crates/oore-contract/src/pipeline_migrate.rs:43-53 | of valid files that are not refused: the new file is invalid exactly beyond version 2's limits and differs exactly when no artifacts are listed; every other file is migrated |
| Migrate.PrintableMigrates | crates/oore-contract/src/pipeline_migrate.rs:43-53 | with printable commands within the size limits every file that lists artifacts is migrated |
| GeneratedFile.GeneratedPlan | crates/oore-contract/src/pipeline_config.rs:2164-2690 | a generated file plans to exactly its own steps, targets, env and patterns |
| GeneratedFile.DefaultsAreGood | crates/oore-contract/src/lib.rs:3573-3588 | the default patterns are valid and trimmed |
| GeneratedChecks.GeneratedFileOk | crates/oore-contract/src/pipeline_config.rs:1704-1756 | parsing accepts a generated file exactly when its parts fit |
| GeneratedNeeds.ResolvesOnlySecrets | crates/oore-contract/src/pipeline_config.rs:1551-1669 | without vars and flavors exactly the secret text resolves, to itself |
| GeneratedNeeds.GeneratedNeedsSecrets | crates/oore-contract/src/pipeline_config.rs:2164-2690 | a generated file that plans holds secret text and good patterns only |
| GeneratedBehaviour.ListKept | crates/oore-contract/src/pipeline_migrate.rs:196-224 | the one artifact list written at every target is the list collected |
| SecretText.SecretsConcat | crates/oore-contract/src/lib.rs:4426-4453 | secret text put after secret text is secret text, if no `{` meets the seam |
| SecretText.SecretsTrim | crates/oore-contract/src/lib.rs:4426-4453 | trimming secret text leaves secret text |
| Export.ExportSettings | crates/oore-contract/src/pipeline_export.rs:73-269 | the export loops give the specified file, and refuse exactly no or repeated platforms, patterns with `${{` and bad labels |
| ExportSteps.MergedSteps | crates/oore-contract/src/pipeline_export.rs:623-645 | the loop over the form's steps gives the specified merge |
| ExportSteps.MergedForm | crates/oore-contract/src/pipeline_export.rs:623-652 | the expected steps: the form's own before, one merged build per platform, then the Build commands and the rest |
| ExportSteps.SeamExact | crates/oore-contract/src/pipeline_export.rs:113-125 | the written Android build is the merged one if and only if the default command does not end in a blank |
| Export.ExportedFileOk | crates/oore-contract/src/pipeline_export.rs:558-573 | the exported file is valid exactly when its texts are secret text and its parts fit |
| Export.ExportedBehaviour | crates/oore-contract/src/pipeline_export.rs:558-585 | the exported file plans to exactly the expected behaviour if and only if no artifact pattern is blank and no blank stands before the Play bundle |
| Export.ExportedTriggersExact | crates/oore-contract/src/pipeline_export.rs:252-262 | the exported file's `on` starts exactly the webhooks its trigger settings start with their globs read clean, but for missed tags |
| Export.ExportOutcome | crates/oore-contract/src/pipeline_export.rs:73-437 | every form's outcome: refused, invalid, building differently for exactly those two reasons, or exported; "would trigger differently" is unreachable |
| TargetInputs.InputsMakeBuild | crates/oore-contract/src/pipeline_import.rs:507-564 | whatever inputs are chosen for a build, the base's, arguments or an override, they make exactly that build |
| TargetInputs.ReadArgsAreWords | crates/oore-contract/src/pipeline_import.rs:507-564 | arguments read from a build are words without blanks and quotes that make exactly that build |
| TargetInputs.ArgsRecovered | crates/oore-contract/src/pipeline_import.rs:507-564 | arguments without blanks and quotes, none of them `&&` with Play on, are read back from the command alone |
| ImportPlan.FileIsFormShaped | crates/oore-contract/src/pipeline_import.rs:112-205 | the plan of every valid file without workflows, vars and flavors has trimmed steps, one build per platform in order, and good patterns |
| ImportDraft.DraftBehaviour | crates/oore-contract/src/pipeline_import.rs:361-391 | whatever the editor holds, the settings read from a file do, exported again, exactly what the file does |
| Import.ReadForm | crates/oore-contract/src/pipeline_import.rs:77-391 | nothing is unsupported exactly when the file has no workflows, vars or flavors, the form can hold its steps, order, builds and env, and trigger settings can say its `on` without commas; then the settings are the specified ones and the triggers map to exactly the `on`, schedules kept |
| Import.FileOnStartsTheSame | crates/oore-contract/src/pipeline_import.rs:300-312 | the `on` the importer compares starts exactly the webhooks the file's does |
| Import.FormOrderIs | crates/oore-contract/src/pipeline_import.rs:140-150 | the form's order has the same platforms, Android before iOS before macOS |
| Import.ImportNeverDiffers | crates/oore-contract/src/pipeline_import.rs:393-429 | for every valid file and every editor state, settings that export at all pass the importer's own check: both "please report this" differences are unreachable |
| ImportExport.ImportUndoesExport | crates/oore-contract/src/pipeline_import.rs:77-452 | importing an exported file with its settings at hand reports nothing, gives the same settings up to blanks around user commands, and passes the check |
| ImportExport.ArgumentsReadBack | crates/oore-contract/src/pipeline_import.rs:507-564 | without settings at hand plain arguments of default commands come back |
| ImportOutcome.ImportAlone | crates/oore-contract/src/pipeline_import.rs:77-452 | without settings at hand a file the form can hold is held, unless the step count, a derived name, the patterns or the `on` of the file the form would write is beyond the limits |
| ImportTexts.FileHasFormTexts | crates/oore-contract/src/pipeline_import.rs:112-205 | the commands and env of every such plan are secret text, trimmed, not blank and within the limits |
| ImportOutcome.ImportOutcome | crates/oore-contract/src/pipeline_import.rs:393-429 | for every valid file the form can hold and every editor state: an invalid file exactly when the file the form would write is beyond the limits; otherwise building differently exactly when the editor's list is kept and has a blank pattern, or its Android arguments are kept and put a blank before the Play bundle; otherwise the settings are held |
| ImportOutcome.ImportForm | crates/oore-contract/src/pipeline_import.rs:77-452 | the whole import: with nothing unsupported the settings are the ones read and the check ends as told |
| ImportOutcome.ReadFits | crates/oore-contract/src/pipeline_import.rs:393-410 | the file the form would write fits exactly when its step count, derived names, kept builds, patterns and `on` do |
| FormFields.ListComesBack | apps/web/src/lib/pipeline-form-utils.ts:28-42 | a list written into a field and read again is the list if and only if each text is trimmed, not empty and without the separator |
| FormFields.EnvComesBack | apps/web/src/lib/pipeline-form-utils.ts:44-62 | env variables come back from their lines if and only if keys are not empty, trimmed, one line and without `=`, and values trimmed and one line |
| FormFields.LabelsComeBack | apps/web/src/lib/pipeline-form-utils.ts:182-185 | labels come back if and only if they ascend, are in lower case, trimmed and without commas |
| FormFields.SettingsComeBack | apps/web/src/lib/pipeline-form-utils.ts:146-180 | whole settings come back from the form's fields if and only if every part does; an empty pattern list never does |
| FormFields.TriggersComeBack | apps/web/src/lib/pipeline-form-utils.ts:187-219 | trigger settings come back if and only if each glob does and tags and paths are listed only with events they apply to |
| ImportFields.ImportedComesBack | apps/web/src/lib/pipeline-yaml-import.ts:84-117 | settings read from a file by an editor that shows what its form holds come back from the form exactly if and only if no artifact pattern has a line break: the importer refuses everything else that the form would change |
| ImportFields.ReadTriggersComeBack | apps/web/src/lib/pipeline-yaml-import.ts:119-133 | so do trigger settings, if and only if no path glob has a line break |
| ImportCounterexamples.BlankListImport | crates/oore-contract/src/pipeline_import.rs:479-500 | a file listing `*.apk` while the editor's list also has a blank pattern: importing reports building differently |
| ImportCounterexamples.BlankArgumentImport | crates/oore-contract/src/pipeline_import.rs:507-564 | an Android argument that is a blank, kept with Play on: importing reports building differently |
| ImportCounterexamples.LongNameImport | crates/oore-contract/src/pipeline_import.rs:393-410 | a valid file with a short step name and a command of sixty three-byte characters: the form's file is invalid |
| ImportCounterexamples.BrokenPatternImport | apps/web/src/lib/pipeline-yaml-import.ts:84-117 | a valid file whose pattern has a line break is imported, and the form makes two patterns of it |
| Counterexamples.NoArtifactsDiffer | crates/oore-contract/src/pipeline_migrate.rs:196-224 | a valid file for one platform with an empty artifact list is reported to build differently |
| Counterexamples.LongNameIsInvalid | crates/oore-contract/src/pipeline_migrate.rs:425-440 | a valid file with one command of sixty three-byte characters generates an invalid file |
| Counterexamples.TrailingBlankDiffers | crates/oore-contract/src/pipeline_export.rs:113-125 | an Android argument that is a blank, with Play on, is reported to build differently |
| Counterexamples.BlankPatternDiffers | crates/oore-contract/src/pipeline_export.rs:186-206 | a blank artifact pattern is reported to build differently |
| Protobuf.VarintRoundTrip | crates/oore-google-play/src/aab.rs:133-144 | every value below 2^64 reads back, whatever follows it |
| Protobuf.VarintFits | crates/oore-google-play/src/aab.rs:133-144 | the value of a varint stays in 64 bits |
| Protobuf.OrAdds | crates/oore-google-play/src/aab.rs:133-144 | in the loop bitwise or adds, because the parts never overlap |
| Protobuf.ReadVarint | crates/oore-google-play/src/aab.rs:133-144 | the loop reads at the cursor and moves it past exactly what it read |
| Protobuf.Fields.NextField | crates/oore-google-play/src/aab.rs:147-179 | a returned field takes at least one byte and leaves exactly the rest; errors and the end change nothing |
| Protobuf.FieldRoundTrip | crates/oore-google-play/src/aab.rs:306-333 | any well-formed field reads back, whatever follows it |
| Protobuf.MessageRoundTrip | crates/oore-google-play/src/aab.rs:306-333 | decoding undoes encoding for every list of well-formed fields |
| AabManifest.DecodeCompiledItem | crates/oore-google-play/src/aab.rs:197-219 | the nested loops read the item's value, and terminate |
| AabManifest.DecodeAttribute | crates/oore-google-play/src/aab.rs:221-238 | the loop reads the attribute, later fields replacing earlier ones |
| AabManifest.ParseManifest | crates/oore-google-play/src/aab.rs:240-295 | the loops give the specified manifest or error |
| AabManifest.VersionCodeReads | crates/oore-google-play/src/aab.rs:197-219 | sign-extended and plain varints read as the same 32-bit code |
| AabManifest.ParseDecimal | crates/oore-google-play/src/aab.rs:276-283 | every 64-bit number reads back from its decimal text |
| AabManifest.TextManifest | crates/oore-google-play/src/aab.rs:274-283 | a version code written as text is read, blanks around it aside |
| AabManifest.CompiledName | crates/oore-google-play/src/aab.rs:284-288 | a version name that is only compiled is read from there |
| AabManifest.CompiledString | crates/oore-google-play/src/aab.rs:197-219 | a compiled string is read from its item |
| AabManifest.ManifestAccepts | crates/oore-google-play/src/aab.rs:260-283 | an element is accepted exactly when it is called manifest, its first package attribute without a namespace is not empty, and its first Android version code can be read |
| AabManifest.ElementReads | crates/oore-google-play/src/aab.rs:240-268 | the element loop reads the last name and all attributes in order, wherever they stand |
| AabManifest.ManifestRoundTrip | crates/oore-google-play/src/aab.rs:240-295 | any non-empty package, any 32-bit version code and any non-empty version name are recovered, whatever other attributes stand among the three in whatever order, with unknown well-formed fields anywhere in the node, element, attribute, item and primitive messages |

## Left out

- YAML text: rendering, quoting, comments, anchors and parsing; rendering a tree and reading it back is the identity, except that an empty list reads as no list.
- Store uploads: publishing, signing, size budgets and test reports, in plans, exports and imports, including their part of the export's and import's own checks.
- Warnings, notes and the wording of errors; which errors occur is kept, and which of several is reported first is not.
- Workflows in `FileChecks`: what parsing checks is modelled for files without workflows, which is what migration, export and import need; `Lower`, `LowerFile` and `PlanShape` have workflows.
- Update: download, signature and candidate validation, the lock and its owner's process id, parent directories, and the temporary file of an atomic manifest write; the write is one step.
- Update: legacy manifests without a state per entry (`apps/web/tools/oore-web.js`, lines 1750-1757), which this code no longer writes.
- Bundle manifests: the zip container, deflate and file seeking; the model starts from the manifest's bytes. Text is bytes, so the lossy conversion to UTF-8 is not modelled, and blanks around a textual version code are ASCII ones.
- FormFields: the build number offset is the number, not its text; schedules are kept as they are; JavaScript's `trim` is taken as Rust's (they differ at U+0085 and U+FEFF) and `toLowerCase` as the ASCII one.
- Positions in texts count characters, not UTF-8 bytes; sizes and globs use UTF-8.
- `str::trim` and `split_whitespace` use the Unicode White_Space property, listed in `Text.IsSpace`.
- LowerFile.LowerWorkflow: does not resolve `publish` texts, and stops at unknown targets or selections, where the code goes on to collect more errors; either way there is no plan.
- Role and status enums, access control, tokens, metrics, preflight checks, terminal and web interfaces and the rest of the repository, which would add plumbing or easy members.

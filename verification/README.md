# ApkForge core, modelled in Dafny

ApkForge rebuilds Android APKs: it decompiles an APK with apktool, patches
`apktool.yml`, `BuildConfig.smali`, `strings.xml` and `AndroidManifest.xml`,
compiles and merges custom Java/Kotlin and native code, rebuilds, aligns and
signs. The order of this work is a list of step strings run by a small
interpreter, the pipeline manager.

This project models that interpreter and the deterministic rules around it:

- `pipeline.dfy` — the pipeline engine. A step string is split into a name and
  literal arguments; the name is resolved by its number of dots (a host method,
  a module function, or a method of a cached, auto-constructed helper
  instance); the step runs; a failure policy with an operator prompt decides
  whether to go on. A pure specification (`RunSpec` and friends over an
  `EngineState`) is proved about, and the class `PipelineManager` is proved to
  follow it.
- `main.dfy` — the host object: its warning flag and the build steps that set
  its state — the native build with its failure policy, the `android.jar`
  search, the classpath, the decompile check, the version-code change entry
  and the signed file name.
- `project_config.dfy` — loading `build_config.json` into the build settings,
  their override from the environment, `to_dict`, the skip-file and keystore
  queries, the existing additional smali directories and the module-global
  configuration.
- `config.dfy` — the keystore settings read from `keystore.json` and their
  validation before signing.
- `path_manager.dfy` — classifying and resolving the path strings of
  `build_config.json` and filling the table of named project paths, stage by
  stage.
- `native_build_config.dfy` — the native build type, the target ABI and the
  library name read from `CMakeLists.txt`, and the CMake configure and build
  command lines.
- `cpp_builder.dfy` — the native builder: its construction, the
  prerequisites, the target ABIs, the per-ABI build loop and its summary.
- `compiler.dfy` — the source compiler: its construction, the platforms
  directory search, the latest platform and its `android.jar`, the
  classpath, and the temporary entries made and cleaned up around
  `compile_and_merge`.
- `smali_updater.dfy` — reading and patching `BuildConfig.smali`.
- `yaml_updater.dfy` — reading and patching the version lines of `apktool.yml`.
- `strings_updater.dfy` — finding and rewriting the application-name element of
  `strings.xml`; its two regular expressions are written as matchers.
- `xml.dfy` — ElementTree elements as values: attribute dictionaries in
  insertion order, `get`/`set`, document-order descendants, `findall` by tag.
- `manifest_manager.dfy` — the read-only manifest queries (package, SDK
  versions, minimum SDK, main activity) over a file that is missing, unparsable
  or parsed.
- `manifest_updater.dfy` — merging a custom manifest into the main one:
  attribute copies, permission, feature and component merges, launcher-filter
  removal, the application lookup, the package update and the completion of
  `strings.xml` with the referenced string resources.
- `platform_utils.dfy` — the executable search (`which` with the platform's
  extensions, then extra directories), `run_command` and its checked variant,
  the default keyword arguments, the argument files handed to the compilers
  and the compiler error report.
- `smali_decompiler.dfy` — where baksmali writes each DEX file: the existing
  `smali`/`smali_classesN` directories and their indices, the fixed and the
  auto-detected target directory, the API level passed to baksmali, and the
  set of directories `decompile` reports.
- `apk_analyzer.dfy` — the analyzer object: which directories are DEX
  directories and their order, the choice of the DEX directory that receives
  new smali code, the multidex attribute written into the manifest, the
  lookup of `BuildConfig.smali` and the merge of smali files.
- `resource_manager.dfy` — the merge of the project's resource tree into the
  APK's `res` directory (copy when absent or different, directory and file
  counters, the total file count) and the three difference lists.
- `abi_filter.dfy` — keeping the configured ABI directories under `lib`,
  removing the others, the warning about requested ABIs that are missing,
  and the listing of `.so` files.
- `library_deployer.dfy` — finding the native libraries a build produced
  (first in the target's `lib/arm64-v8a`, then in the build tree, with the
  ignore patterns and the target-name filter), detecting a library's ABI
  from its path, and deploying each library by its extension into
  `lib/<abi>` or `libs`.
- `tool_finder.dfy` — locating CMake and Ninja (PATH, then the SDK's `cmake`
  version directories, then fixed installation places), the newest NDK by
  the version `_parse_ndk_version` reads from a directory name, and
  `JAVA_HOME`.
- `apk_signer.dfy` — choosing the newest build-tools directory by its version
  key, locating `zipalign` and `apksigner` (exact name, alternatives, PATH),
  the alignment, signing and verification command lines, and the check of a
  finished run.
- `dex_converter.dfy` — the build-tools directory from the SDK or the
  environment, the version directories and their independently read
  versions, the `d8`/`dx` names per platform and the conversion run.
- `decompiler.dfy` — decoding the APK with apktool after clearing the output
  directory, and the error report of a failing run.
- `apk_builder.dfy` — rebuilding with apktool, the one retry after removing
  the multidex attribute from the manifest, and the attribute removal itself.
- Shared: `wrappers.dfy` (Option/Result, Python exception kinds), `json.dfy`
  (the values `json.load` produces), `text.dfy`
  (Python string operations: find, strip, lower, split, join, int, hex),
  `order.dfy` (Python ordering, sorting and max/min selection), `scan.dfy`
  (leftmost regular-expression search written as matchers), `fs.dfy` (the file
  system as a map), `pyobjects.dfy` (the reflection registry the engine
  resolves names in).

Reflection (`dir`, `getattr`, `importlib`, `inspect.signature`) is replaced by
an explicit registry of attributes, modules and classes with their required
constructor parameters. `ast.literal_eval`, the outcome of calling a step and
the operator's answer to the prompt are parameters (`Oracles`,
`Context.parseLiterals`).

## Model

| member | source | states |
|---|---|---|
| Pipeline.LoadBehavior | ApkForge/pipeline_manager.py:101-107 | without `pipeline_behavior` the policy is stop_on_error true, stop_on_warning false, timeout 30; otherwise the configured table |
| Pipeline.ContinueAnswer | ApkForge/pipeline_manager.py:34-70 | a timeout continues; an answer continues iff its lowered, stripped text is "y" or "yes" |
| Pipeline.SplitMatchesPattern | ApkForge/pipeline_manager.py:247-258 | the split fails, with "Cannot parse step string", iff the step string matches neither `name(args)` nor `name` |
| Pipeline.SplitFollowsMatch | ApkForge/pipeline_manager.py:247-258 | a successful split returns the stripped name of a match and, when a group fits, the longest argument text up to a final ")" |
| Pipeline.DisplayNameAgrees | ApkForge/pipeline_manager.py:89-91 | for a parsable step, the display name is the name the splitter finds |
| Pipeline.ParseArgs | ApkForge/pipeline_manager.py:260-282 | blank argument text gives no arguments; otherwise the literal parser's result, and its failure becomes a ValueError saying only literals are supported |
| Pipeline.AvailableSteps | ApkForge/pipeline_manager.py:136-142 | sorted, and contains exactly the callable, non-dunder attribute names |
| Pipeline.SimilarNames | ApkForge/pipeline_manager.py:331-332 | keeps exactly the names containing the requested name case-insensitively, in order |
| Pipeline.HintsAreSimilarSteps | ApkForge/pipeline_manager.py:331-335 | at most 5 hints, each an available step containing the name case-insensitively |
| Pipeline.ResolveHostMethod | ApkForge/pipeline_manager.py:327-344 | succeeds iff the attribute is callable; a missing or None attribute gives the AttributeError with hints |
| Pipeline.GetAttrOrRaise | ApkForge/pipeline_manager.py:426-431 | fails with AttributeError iff the attribute is missing or None; otherwise returns it |
| Pipeline.ImportSpec | ApkForge/pipeline_manager.py:415-424 | a cached module is returned without change; a successful import is cached; a failed one changes nothing; an empty name is a ValueError |
| Pipeline.InjectAllMeaning | ApkForge/pipeline_manager.py:373-400 | construction arguments are injected one per required parameter, in order, when every parameter is injectable |
| Pipeline.InjectAllStopsAtUnknown | ApkForge/pipeline_manager.py:373-400 | the first parameter outside the eight injectable names is the one reported |
| Pipeline.AutoCreateMeaning | ApkForge/pipeline_manager.py:354-413 | no required parameters calls `cls()`; an unknown parameter raises RuntimeError naming it; otherwise the class is called with the injected arguments |
| Pipeline.InstanceSpec | ApkForge/pipeline_manager.py:346-352 | a cached instance is returned unchanged; a new one is cached under the class name with a fresh serial |
| Pipeline.ResolveModuleAttribute | ApkForge/pipeline_manager.py:290-304 | a two-part name resolves to a module function; a class gives ValueError and a non-callable TypeError; the instance cache is untouched |
| Pipeline.ResolveInstanceMethod | ApkForge/pipeline_manager.py:306-320 | a three-part name resolves to a method bound to the instance cached under the class name |
| Pipeline.ResolveSpec | ApkForge/pipeline_manager.py:284-325 | dispatch on the number of dotted parts; caches only grow and stay coherent |
| Pipeline.SameClassNameSameInstance | ApkForge/pipeline_manager.py:327-352 | two resolutions naming the same class get the same instance, whatever happened in between |
| Pipeline.TooManyDots | ApkForge/pipeline_manager.py:322-325 | four or more dotted parts give ValueError and change nothing |
| Pipeline.ArgumentsParsedFirst | ApkForge/pipeline_manager.py:236-245 | a split or argument error is reported before the name is resolved, so the caches stay as they were |
| Pipeline.BadArgumentsFailHead | ApkForge/pipeline_manager.py:260-282 | argument text the literal parser rejects fails the step text with the "Cannot parse arguments" ValueError on the stripped text |
| Pipeline.ExecuteSpec | ApkForge/pipeline_manager.py:161-200 | one record per step, named by the display name; the step stops the run only after failing under a stopping policy with a "no" from the operator |
| Pipeline.WarningPromotion | ApkForge/pipeline_manager.py:169-192 | after a normal return, pending host warnings with stop_on_warning fail the step and clear the flag; otherwise the step succeeds and the flag stays |
| Pipeline.StaleWarningFailsNextStep | ApkForge/pipeline_manager.py:169-192 | a warning left from an earlier step fails a later clean step when stop_on_warning is set |
| Pipeline.RaisingStepKeepsWarnings | ApkForge/pipeline_manager.py:193-200 | a raising step fails and does not clear the warning flag |
| Pipeline.UnresolvedStepFails | ApkForge/pipeline_manager.py:161-200 | a parse or resolution error gives exactly one failed record with that error |
| Pipeline.RunRecordsFollowSteps | ApkForge/pipeline_manager.py:109-134 | the records are one per attempted step, in order, each named after its step |
| Pipeline.RunOkIffNoFailure | ApkForge/pipeline_manager.py:116-134 | the run succeeds iff no attempted step failed |
| Pipeline.ExecutorStopsOnlyOnFailure | ApkForge/pipeline_manager.py:202-234 | a step asks to stop the run only when it failed |
| Pipeline.RunWithStops | ApkForge/pipeline_manager.py:125-131 | with such steps, a run that attempts fewer steps than given ended on a failed step |
| Pipeline.RunAllWhenNeverStopping | ApkForge/pipeline_manager.py:222-227 | with both stop keys false every step is attempted |
| Pipeline.RunAllWhenOperatorContinues | ApkForge/pipeline_manager.py:222-234 | if the operator always continues, every step is attempted |
| Pipeline.RunExtends | ApkForge/pipeline_manager.py:95-99 | a run only adds to the module and instance caches |
| Pipeline.CountsPartition | ApkForge/pipeline_manager.py:144-146 | success and failed counts add up to the number of records; no failures iff all succeeded |
| Pipeline.PipelineManager.ListAvailableSteps | ApkForge/pipeline_manager.py:136-142 | sorted names of exactly the callable non-dunder host attributes |
| Pipeline.PipelineManager.ImportModule | ApkForge/pipeline_manager.py:415-424 | follows `ImportSpec` on the manager's caches |
| Pipeline.PipelineManager.AutoCreateInstance | ApkForge/pipeline_manager.py:354-413 | the parameter loop computes `AutoCreateSpec` |
| Pipeline.PipelineManager.GetOrCreateInstance | ApkForge/pipeline_manager.py:346-352 | follows `InstanceSpec` |
| Pipeline.PipelineManager.ResolveCallable | ApkForge/pipeline_manager.py:284-344 | follows `ResolveSpec` |
| Pipeline.PipelineManager.ParseStep | ApkForge/pipeline_manager.py:236-245 | follows `ParseStepSpec` |
| Pipeline.PipelineManager.OnStepError | ApkForge/pipeline_manager.py:202-234 | marks the step failed with the message, appends one failed record, returns the policy's decision |
| Pipeline.PipelineManager.ExecuteStep | ApkForge/pipeline_manager.py:161-200 | follows `ExecuteSpec` |
| Pipeline.PipelineManager.Run | ApkForge/pipeline_manager.py:109-134 | resets the results and follows `RunSpec` from step number 1 |
| Pipeline.PipelineManager.ReportCounts | ApkForge/pipeline_manager.py:144-146 | counts the success and failed records, which add up to all records |
| Host.ApkForge.HasWarnings | ApkForge/main.py:76-77 | returns the warning flag |
| Host.ApkForge.LogWarning | ApkForge/main.py:79-81 | sets the warning flag |
| SmaliUpdater.MatchAt | ApkForge/smali_updater.py:18-23 | a pattern matches only at its field name; the version-code group is `0x` and hex digits, a string group holds no quote |
| SmaliUpdater.RegexPassMeaning | ApkForge/smali_updater.py:49-53 | each field gets the group of its leftmost match, or keeps its value when its pattern matches nowhere |
| SmaliUpdater.ParseStringValue | ApkForge/smali_updater.py:77-89 | a value exists iff `= "` occurs and a `"` follows it; the value is the quote-free text between them |
| SmaliUpdater.UpdateStringValue | ApkForge/smali_updater.py:155-167 | only the quoted span after the first `= "` is replaced; a line without it is unchanged |
| SmaliUpdater.ParseAfterUpdate | ApkForge/smali_updater.py:155-167 | parsing after updating with a quote-free value gives that value |
| SmaliUpdater.UpdateUnchangedIff | ApkForge/smali_updater.py:155-167 | the update leaves the line as it was iff there is no quoted value or it already is the new value |
| SmaliUpdater.VersionHexReadsBack | ApkForge/smali_updater.py:94 | a non-negative code is written as `0x` and lower-case hex that parses back to the code |
| SmaliUpdater.UpdateVersionCode | ApkForge/smali_updater.py:148-153 | a line with exactly one `0x` becomes the text before it, the new hex and a newline; other lines are unchanged |
| SmaliUpdater.VersionCodeOfLine | ApkForge/smali_updater.py:64-69 | a line yields a version code iff it holds the field and exactly one `0x`; the value is `0x` and the stripped rest |
| SmaliUpdater.VersionCodeRoundTrip | ApkForge/smali_updater.py:148-153 | after updating a version-code line, the line scan reads back the new code |
| SmaliUpdater.LineOutcome | ApkForge/smali_updater.py:133-146 | a change is reported iff the line changed |
| SmaliUpdater.NoFieldKeepsLine | ApkForge/smali_updater.py:133-146 | a line holding no field identifier (or the version code without `0x`) is kept, with no change |
| SmaliUpdater.FirstFieldDecides | ApkForge/smali_updater.py:133-146 | the first field, in configuration order, whose identifier occurs (a version-code line also needing `0x`) rewrites the line |
| SmaliUpdater.Updater.ProcessLine | ApkForge/smali_updater.py:133-146 | the loop over the configured fields returns the outcome of `LineOutcome` |
| SmaliUpdater.UpdatedLines | ApkForge/smali_updater.py:119-126 | one output line per input line, each processed |
| SmaliUpdater.ChangesIffLineChanged | ApkForge/smali_updater.py:119-131 | some change is reported iff some line differs after the update |
| SmaliUpdater.ChangesComeFromConfig | ApkForge/smali_updater.py:133-146 | every change names a configured field and carries its new value |
| SmaliUpdater.LastLineWins | ApkForge/smali_updater.py:55-62 | in the line scan the last line yielding a field's value decides it |
| SmaliUpdater.NoLineKeepsValue | ApkForge/smali_updater.py:44-62 | a field no line yields keeps the value of the regex pass |
| SmaliUpdater.Updater.Load | ApkForge/smali_updater.py:35-47 | a missing file raises FileNotFoundError and changes nothing; otherwise the lines are read and the old values extracted, regex pass first, line scan second |
| SmaliUpdater.Updater.UpdateBuildConfig | ApkForge/smali_updater.py:91-131 | returns the changes in line order; writes the processed lines only when there is a change; the loaded lines stay as they were |
| YamlUpdater.KeyOfPrefix | ApkForge/yaml_updater.py:33-38 | a line that starts with a key's text is classified as that key; the three keys exclude one another, so the order of the tests does not matter |
| YamlUpdater.KeyLineValue | ApkForge/yaml_updater.py:63-65 | on a key line the value is the text after the key (its first colon), stripped of whitespace and then of quote characters |
| YamlUpdater.ScanHas | ApkForge/yaml_updater.py:27-40 | a key is in the dictionary iff some line carries it |
| YamlUpdater.ScanLast | ApkForge/yaml_updater.py:27-40 | a key's value is the one carried by the last line that carries the key |
| YamlUpdater.ValuesOfKeys | ApkForge/yaml_updater.py:27-40 | `extract_values` reports a key iff some stripped line starts with it |
| YamlUpdater.LastLineWins | ApkForge/yaml_updater.py:27-40 | the last stripped line starting with a key decides that key's value |
| YamlUpdater.Yaml.ExtractValues | ApkForge/yaml_updater.py:27-40 | the loop returns the dictionary of the last-line-wins scan and changes nothing |
| YamlUpdater.StripAndLStripAgree | ApkForge/yaml_updater.py:27-55 | `extract_values` (on the stripped line) and `update` (on the left-stripped line) pick out the same lines with the same key |
| YamlUpdater.LeadIsIndentedKey | ApkForge/yaml_updater.py:46-55 | a rewritten line is two spaces, the key with its colon, one space, the value and a newline |
| YamlUpdater.ReadBack | ApkForge/yaml_updater.py:46-65 | reading back a rewritten line gives its key and the written value stripped of whitespace and quotes |
| YamlUpdater.EntryAfterUpdate | ApkForge/yaml_updater.py:46-55 | rewriting keeps which key each line carries, and a clean written value is read back unchanged |
| YamlUpdater.UpdateIdempotent | ApkForge/yaml_updater.py:46-55 | updating a line twice with the same values gives what updating once gives |
| YamlUpdater.MapLinesAt | ApkForge/yaml_updater.py:46-55 | the update keeps the line count and line `i` of the result is line `i` rewritten |
| YamlUpdater.AnyLineExists | ApkForge/yaml_updater.py:44-55 | the `updated` flag's meaning: some line was a key line |
| YamlUpdater.UpdateThenExtract | ApkForge/yaml_updater.py:27-65 | after `update`, `extract_values` reports the same keys, each with str(version_code), the version name or the new APK name, when that value has no surrounding whitespace or quotes |
| YamlUpdater.Yaml.Load | ApkForge/yaml_updater.py:20-25 | a missing file raises FileNotFoundError with the path and leaves the lines; otherwise the lines are the file's lines |
| YamlUpdater.Yaml.Update | ApkForge/yaml_updater.py:42-61 | returns "<app> (<name>).apk"; the lines become the rewritten lines; `updated` iff some line was a key line; the file is written with the new lines only then |
| StringsUpdater.AppNameKeysPlain | ApkForge/strings_updater.py:17-25 | every key tried is a plain name, with no `<` and no backslash |
| StringsUpdater.LiteralTagRedundant | ApkForge/strings_updater.py:34-37 | whenever the strict pattern matches somewhere, the flexible pattern matches too |
| StringsUpdater.FindTagFirst | ApkForge/strings_updater.py:32-45 | the key found is the first, in key order, whose flexible pattern matches, with that pattern's leftmost match; nothing is found iff no key's pattern matches |
| StringsUpdater.StringsUpdater.FindTagAmong | ApkForge/strings_updater.py:32-45 | the nested loop over keys and patterns returns `FindTag` and records the key of a match in `used_key`, leaving it otherwise |
| StringsUpdater.StringsUpdater.FindAppNameTag | ApkForge/strings_updater.py:32-45 | `_find_app_name_tag` over the seven application-name keys, as `FindTagAmong` |
| StringsUpdater.ReplacementMatches | ApkForge/strings_updater.py:87-94 | the element `<string name="key">new</string>` is a match of the flexible pattern for its key |
| StringsUpdater.ReplacementTag | ApkForge/strings_updater.py:87-101 | for a name without `</string>`, that match is the element itself and its group is the name |
| StringsUpdater.AddBeforeSingleClose | ApkForge/strings_updater.py:47-53 | with one `</resources>`, the indented element and a newline are inserted just before it and nothing else changes |
| StringsUpdater.AddedTagFound | ApkForge/strings_updater.py:47-57 | whether or not `</resources>` occurs, the text after adding holds a match for `app_name` |
| Text.ReplaceAllSplit | ApkForge/strings_updater.py:49-52 | `str.replace` is splitting on the pattern and joining with the replacement |
| StringsUpdater.CollapseSpace | ApkForge/strings_updater.py:79 | the result holds no whitespace but single spaces, and starts with a space exactly where the text starts with whitespace |
| StringsUpdater.CollapseKeepsText | ApkForge/strings_updater.py:79 | collapsing whitespace keeps every other character, in order |
| StringsUpdater.CleanName | ApkForge/strings_updater.py:78-79 | the cleaned old name is single-spaced with no whitespace at either end |
| StringsUpdater.SubWithoutMatch | ApkForge/strings_updater.py:87-94 | `re.sub` with no match leaves the text as it was |
| StringsUpdater.SubFirst | ApkForge/strings_updater.py:87-94 | the text before the first match is kept and the expansion stands where the match began |
| StringsUpdater.SearchAfterSub | ApkForge/strings_updater.py:87-101 | after substituting the element for every match, searching again finds the new name (for a name without `</string>`) |
| StringsUpdater.PlanUnreadable | ApkForge/strings_updater.py:59-65 | a missing path fails with "File not found at" and the path; a directory fails with the caught error; neither writes nor sets a field |
| StringsUpdater.PlanAdds | ApkForge/strings_updater.py:67-76 | with no tag the added text is written, the call succeeds, and the next search finds the element under `app_name` |
| StringsUpdater.PlanAlreadySet | ApkForge/strings_updater.py:78-85 | success without writing happens only for a new name that equals the cleaned old one, hence single-spaced with no whitespace at its ends |
| StringsUpdater.PlanRewrites | ApkForge/strings_updater.py:87-106 | under Python's literal-template rule, a new name without backslash or `</string>` that differs from the cleaned old one is written into every match of the found key, and the call succeeds iff the name has no whitespace at its ends |
| StringsUpdater.StringsUpdater.UpdateContent | ApkForge/strings_updater.py:67-106 | after reading, the returned flag and message, the text to write and the two fields are those of `ContentPlan` |
| StringsUpdater.StringsUpdater.UpdateAppName | ApkForge/strings_updater.py:59-109 | the result, the file written and the fields set are those of `UpdatePlan` for the disk before the call; nothing else on disk changes |
| Xml.GetSet | ApkForge/manifest_updater.py:258 | after `set`, reading the name gives the new value and every other name reads as before |
| Xml.GetNames | ApkForge/manifest_updater.py:264 | a name has a value exactly when it is among the attribute names |
| Xml.TaggedConcat | ApkForge/manifest_updater.py:61-67 | selecting by tag distributes over concatenation, as two `findall` results extended one after the other |
| Xml.DescendantsFromAppend | ApkForge/manifest_updater.py:335 | appending a child adds it and its subtree at the end of the document-order descendants |
| ManifestManager.MinSdkValue | ApkForge/manifest_manager.py:52-57 | the minimum SDK is the decimal value of `minSdkVersion` when it is all digits, and 21 otherwise |
| ManifestManager.UnreadableManifest | ApkForge/manifest_manager.py:24-50 | a missing or unparsable manifest gives no package, (None, None) for the versions, no main activity and minimum SDK 21 |
| ManifestManager.ManifestWithoutElements | ApkForge/manifest_manager.py:42-50 | without `uses-sdk` both versions are None and the minimum is 21; without `application` there is no main activity |
| ManifestManager.FirstLauncherFrom | ApkForge/manifest_manager.py:71-76 | the index found is a launcher activity with no launcher before it from the start index; None means there is no launcher there |
| ManifestManager.FirstLauncherAt | ApkForge/manifest_manager.py:71-76 | a launcher activity with no launcher before it is the one found |
| ManifestManager.MainActivityIsFirstLauncher | ApkForge/manifest_manager.py:59-78 | a reported main activity is the Android name of a launcher activity of the first application element, and no earlier activity is a launcher |
| ManifestManager.HasLauncherIntent | ApkForge/manifest_manager.py:87-105 | true iff some action child is named MAIN and some category child is named LAUNCHER |
| ManifestManager.IsLauncherActivity | ApkForge/manifest_manager.py:80-85 | true iff some direct intent-filter child is a launcher intent |
| ManifestManager.GetMainActivity | ApkForge/manifest_manager.py:59-78 | the loop returns the main activity of the specification: None for an unreadable file or no application, otherwise the first launcher's name |
| ManifestUpdater.FirstNameUnique | ApkForge/manifest_updater.py:264 | in an attribute dictionary the first name does not occur again |
| ManifestUpdater.CopyManifestGet | ApkForge/manifest_updater.py:261-268 | after the copy, every name other than `package` and `xmlns:*` that the source has carries the source value, and every other name keeps the target value |
| ManifestUpdater.CopyManifestSkips | ApkForge/manifest_updater.py:265 | `package` and `xmlns:*` attributes keep their target values whatever the source holds |
| ManifestUpdater.CopyManifestAttributes | ApkForge/manifest_updater.py:261-268 | the loop leaves the target with the copied attributes and returns the number of copyable source attributes |
| ManifestUpdater.CopyAbsentGet | ApkForge/manifest_updater.py:317-325 | after the copy, a name the target had keeps its value, and any other name takes the source value |
| ManifestUpdater.CopyAbsentSize | ApkForge/manifest_updater.py:317-325 | the target grows by exactly the number of attributes counted as copied |
| ManifestUpdater.CopyApplicationAttributes | ApkForge/manifest_updater.py:317-325 | the loop leaves the target with the absent attributes added and returns how many it added |
| ManifestUpdater.ExistsNamedConcat | ApkForge/manifest_updater.py:61-77 | a name is among two concatenated lists iff it is among one of them |
| ManifestUpdater.NamedAmong | ApkForge/manifest_updater.py:341-349 | the search loop answers whether some element carries the name |
| ManifestUpdater.MergeUsesElements | ApkForge/manifest_updater.py:327-378 | the loop appends what the merge rule appends and returns the number of appended elements |
| ManifestUpdater.TaggedSnoc | ApkForge/manifest_updater.py:335 | appending one element extends the tag selection by it exactly when its tag matches |
| ManifestUpdater.MergeUsesAppends | ApkForge/manifest_updater.py:327-378 | the merge only appends: the old children stay in front, and each appended one comes from the source and is named unless unnamed ones are kept |
| ManifestUpdater.MergeUsesKeeps | ApkForge/manifest_updater.py:327-378 | a name present before the merge is still present after it |
| ManifestUpdater.MergeUsesComplete | ApkForge/manifest_updater.py:327-378 | every named source permission or feature is present in the target after the merge |
| ManifestUpdater.UniquelyNamedSnoc | ApkForge/manifest_updater.py:334 | appending an element whose name is absent keeps names unique |
| ManifestUpdater.MergeUsesUnique | ApkForge/manifest_updater.py:327-349 | if the target's names were unique they stay unique, so a name repeated in the source is added once |
| ManifestUpdater.UnnamedCountSnoc | ApkForge/manifest_updater.py:363-366 | appending adds one to the unnamed count exactly for an unnamed element |
| ManifestUpdater.MergeUsesUnnamed | ApkForge/manifest_updater.py:351-378 | permissions add no unnamed element; features add every unnamed source feature |
| ManifestUpdater.ExtractTagName | ApkForge/manifest_updater.py:401-405 | a tag without `}` is kept; otherwise the result is what follows the first `}` |
| ManifestUpdater.NamespaceWithoutBrace | ApkForge/manifest_updater.py:64 | the Android namespace URI contains no `}` |
| ManifestUpdater.ExtractNsName | ApkForge/manifest_updater.py:401-405 | stripping the Android namespace from a namespaced tag gives back the local name |
| ManifestUpdater.ComponentTagPlain | ApkForge/manifest_updater.py:381 | the five component tags carry no namespace and are their own local names |
| ManifestUpdater.MergeApplicationElements | ApkForge/manifest_updater.py:380-399 | the loop appends what the component merge rule appends and returns how many |
| ManifestUpdater.FindWithNsAppend | ApkForge/manifest_updater.py:61-77 | appending a child keeps every name found before and makes a matching named child findable |
| ManifestUpdater.MergeComponentsKeeps | ApkForge/manifest_updater.py:380-413 | a component name present before the merge is still present |
| ManifestUpdater.MergeComponentsComplete | ApkForge/manifest_updater.py:380-413 | every named source child with a component tag is findable under that tag after the merge |
| ManifestUpdater.MergeComponentsAppends | ApkForge/manifest_updater.py:380-399 | the merge only appends, and each appended child is a named source child with a component tag |
| ManifestUpdater.IsLauncherFilter | ApkForge/manifest_updater.py:294-315 | true iff the filter has a LAUNCHER category and a MAIN action |
| ManifestUpdater.KeepNonLaunchers | ApkForge/manifest_updater.py:279-292 | no kept child is a launcher intent filter, and nothing is added |
| ManifestUpdater.KeepNonLaunchersMembers | ApkForge/manifest_updater.py:279-292 | a child survives iff it is not a launcher intent filter |
| ManifestUpdater.RemoveLauncherFromActivity | ApkForge/manifest_updater.py:279-292 | the loop removes exactly the launcher intent filters and returns how many it removed |
| ManifestUpdater.KeepAllWithoutLaunchers | ApkForge/manifest_updater.py:279-292 | filtering a list keeps every cleaned subtree cleaned |
| ManifestUpdater.StripLaunchersClean | ApkForge/manifest_updater.py:270-277 | after removal no activity anywhere in the subtree keeps a launcher intent filter |
| ManifestUpdater.StripFromClean | ApkForge/manifest_updater.py:270-277 | the same for each processed child list |
| ManifestUpdater.RemoveLauncherFiltersClean | ApkForge/manifest_updater.py:270-277 | after removal no child subtree of the application holds an activity with a launcher intent filter |
| ManifestUpdater.FindChild | ApkForge/manifest_updater.py:248-252 | the index of the first direct child with the tag, or None when no child has it |
| ManifestUpdater.ApplicationIndex | ApkForge/manifest_updater.py:247-253 | the application element that the lookup intends: a plain or namespaced application child, None iff there is none |
| ManifestUpdater.ApplicationLookups | ApkForge/manifest_updater.py:198-202 | the lookup as written agrees with the intended one whenever it finds something, and finds every application element that has children |
| ManifestUpdater.EmptyApplicationRejected | ApkForge/manifest_updater.py:201-202 | an application element with attributes but no children is rejected as written, yet exists |
| ManifestUpdater.UpdateFails | ApkForge/manifest_updater.py:198-202 | the update as written fails iff the as-written lookup misses the application of either manifest (none with children), and then with ValueError and its message |
| ManifestUpdater.UpdateCorrectedFails | ApkForge/manifest_updater.py:198-202 | the corrected update fails iff either manifest has no application element at all, with the same ValueError |
| ManifestUpdater.UpdateCorrectedAgrees | ApkForge/manifest_updater.py:198-202 | whenever the update as written succeeds, the corrected update gives the same result |
| ManifestUpdater.EmptyApplicationUpdate | ApkForge/manifest_updater.py:198-202 | a main manifest whose application has no children makes the update as written fail and the corrected one succeed |
| ManifestUpdater.UpdatePackage | ApkForge/manifest_updater.py:229-259 | under either lookup, the package attribute becomes the application id, the old package is remembered, and the text is rewritten iff the old one is non-empty and differs |
| ManifestUpdater.MergedApplicationShape | ApkForge/manifest_updater.py:204-221 | the merged application keeps its tag, has each attribute from the main one when present and from the custom one otherwise, keeps its cleaned children in front, and none of them holds a launcher |
| ManifestUpdater.MergedApplicationComplete | ApkForge/manifest_updater.py:219-221 | every named component of the custom application is findable in the merged application |
| ManifestUpdater.UpdateApplication | ApkForge/manifest_updater.py:198-221 | under either lookup, after the update the main application is replaced by the merged one and every other original child of the root is unchanged |
| ManifestUpdater.TaggedTag | ApkForge/manifest_updater.py:329 | every selected element has the selected tag |
| ManifestUpdater.UpdateUses | ApkForge/manifest_updater.py:211-217 | under either lookup, every named custom permission and feature is present in the updated root |
| ManifestUpdater.WordEnd | ApkForge/manifest_updater.py:130 | the greedy `\w` run: word characters up to the end, and no word character after it |
| ManifestUpdater.RefAt | ApkForge/manifest_updater.py:130 | a match starts with `@string/` and covers at least one word character after it |
| ManifestUpdater.RefNotInside | ApkForge/manifest_updater.py:130 | no reference starts inside another, so the left-to-right scan misses none |
| ManifestUpdater.RefsFound | ApkForge/manifest_updater.py:130 | every reference at or after the scan position is collected |
| ManifestUpdater.StringRefsExactly | ApkForge/manifest_updater.py:130 | a name is referenced iff some position holds `@string/` followed by exactly that word run |
| ManifestUpdater.CharFrom | ApkForge/manifest_updater.py:142 | the first occurrence of the character from a position, or the end |
| ManifestUpdater.StringLines | ApkForge/manifest_updater.py:161-166 | one `<string name="…">Default</string>` line per name, in the given order |
| ManifestUpdater.MergeStringsWrites | ApkForge/manifest_updater.py:123-176 | strings.xml is written iff it exists and some referenced name is missing from it; without `</resources>` it is written back unchanged |
| ManifestUpdater.InsertionContains | ApkForge/manifest_updater.py:169 | the inserted text holds every new line |
| ManifestUpdater.MergeStringsInserts | ApkForge/manifest_updater.py:160-173 | with `</resources>` present the new lines go in front of every closing tag |
| ManifestUpdater.MergeStringsAdds | ApkForge/manifest_updater.py:152-176 | every missing referenced name gets its element with the title-cased default value |
| ManifestUpdater.MergeStringsOnlyMissing | ApkForge/manifest_updater.py:130-152 | only names referenced in the custom manifest and not defined in strings.xml are added |
| PlatformUtils.PlatformExtensions | ApkForge/platform_utils.py:42-50 | Windows tries `""`, `.exe`, `.bat`, `.cmd`, `.ps1`; a Unix system `""`, `.sh`, `.bash`; any other only the bare name |
| PlatformUtils.WhichFirst | ApkForge/platform_utils.py:76-79 | the first extension for which `which` finds a non-empty path gives that path; None only when every extension fails |
| PlatformUtils.FirstExisting | ApkForge/platform_utils.py:59-62 | the first existing `dir/(name + ext)`, or None when none of them exists |
| PlatformUtils.SearchInPaths | ApkForge/platform_utils.py:53-64 | a result is an existing candidate in an existing directory; None only when no existing directory holds any candidate |
| PlatformUtils.FindExecutableOrder | ApkForge/platform_utils.py:67-84 | `which(name)` first, then the extensions in order, then the extra directories; None iff every probe fails |
| PlatformUtils.FindExecutableLoop | ApkForge/platform_utils.py:67-84 | the loops of `find_executable` return what the search order prescribes |
| PlatformUtils.SearchLoop | ApkForge/platform_utils.py:53-64 | the nested loops of `_search_in_paths` return the first existing candidate |
| PlatformUtils.Truncated | ApkForge/platform_utils.py:169-170 | a message over 500 characters keeps its first 500 and gains `...`; a shorter one is kept |
| PlatformUtils.RunCommand | ApkForge/platform_utils.py:134-140 | the command's result when it launches; RuntimeError when the program is missing or cannot be started |
| PlatformUtils.RunCheckedOutcome | ApkForge/platform_utils.py:165-172 | success iff the process ran with code 0; a non-zero code raises RuntimeError starting with the prefix, with the output cut to 500 characters |
| PlatformUtils.TruncatedPrefix | ApkForge/platform_utils.py:168-170 | the cut message is at most 503 characters and starts with the original's first characters |
| PlatformUtils.FillDefaultsKeeps | ApkForge/platform_utils.py:130-132 | every keyword the caller gave keeps its value, and the keys are the caller's plus the defaults' |
| PlatformUtils.FillDefaultsAdds | ApkForge/platform_utils.py:130-132 | a default the caller did not give is added with its listed value |
| PlatformUtils.DefaultsDistinct | ApkForge/platform_utils.py:118-125 | the six defaults have distinct keys |
| PlatformUtils.MergeKwargs | ApkForge/platform_utils.py:118-132 | the loop over the defaults fills in exactly the missing keys |
| PlatformUtils.Escaped | ApkForge/platform_utils.py:188-191 | escaping keeps spaces and line breaks where they were |
| PlatformUtils.EscapedByReplace | ApkForge/platform_utils.py:188-189 | the two `replace` calls, backslashes first, escape each backslash and double quote once |
| PlatformUtils.WriteArgFile | ApkForge/platform_utils.py:183-192 | the written file holds one escaped, quoted-if-spaced line per argument, in order |
| PlatformUtils.UnescapedEscaped | ApkForge/platform_utils.py:188-189 | undoing the escapes gives back the original text |
| PlatformUtils.ReadArgText | ApkForge/platform_utils.py:184-192 | each written line reads back as the argument's value, resolved path or text |
| PlatformUtils.RunCompilerWithArgs | ApkForge/platform_utils.py:205-222 | success iff the compiler ran with code 0; a non-zero code raises RuntimeError with the compiler error report |
| PlatformUtils.FormatCompilerError | ApkForge/platform_utils.py:225-234 | the report is the header with the name and return code followed by the numbered entries |
| PlatformUtils.ReportLines | ApkForge/platform_utils.py:229-232 | the loop emits `  [i] line` for each non-blank stripped line, in order |
| PlatformUtils.ReportedLines | ApkForge/platform_utils.py:228-230 | at most 20 lines of the stripped error output are reported |
| PlatformUtils.EntriesHold | ApkForge/platform_utils.py:230-232 | every non-blank line among the first 20 is reported with its 1-based position |
| PlatformUtils.EntriesSound | ApkForge/platform_utils.py:230-232 | every reported entry is a non-blank line at its 1-based position |
| PlatformUtils.EntriesBlank | ApkForge/platform_utils.py:231 | blank lines add no entry |
| SmaliDecompiler.DirName | ApkForge/smali_decompiler.py:82-85 | index 1 is named `smali`, every other index `smali_classes<index>` |
| SmaliDecompiler.DirIndexDirName | ApkForge/smali_decompiler.py:64-69 | reading the index back from a directory name gives the index it was made from |
| SmaliDecompiler.DirNameInjective | ApkForge/smali_decompiler.py:82-85 | distinct indices name distinct directories |
| SmaliDecompiler.SmaliNamesExactly | ApkForge/smali_decompiler.py:60-62 | a name is listed iff some directory entry with that name starts with `smali` |
| SmaliDecompiler.IndicesExactly | ApkForge/smali_decompiler.py:64-71 | an index is read iff some smali directory is `smali` (index 1) or its name with `smali_classes` removed parses as that integer |
| SmaliDecompiler.GetExistingSmaliDirs | ApkForge/smali_decompiler.py:56-79 | the loop lists the smali directories in order and returns their indices sorted, as a permutation of those read |
| SmaliDecompiler.BaseIndex | ApkForge/smali_decompiler.py:99-107 | the largest existing index, or 0 without any |
| SmaliDecompiler.AutoDirectoryIndex | ApkForge/smali_decompiler.py:94-113 | both branches of the auto-detected directory name index base + i + 1 |
| SmaliDecompiler.AutoTargetsDistinct | ApkForge/smali_decompiler.py:94-113 | in auto mode distinct DEX files get distinct directories, each above every existing index |
| SmaliDecompiler.AutoTargetFresh | ApkForge/smali_decompiler.py:56-113 | an auto-detected directory is none of the existing smali directories |
| SmaliDecompiler.FixedTarget | ApkForge/smali_decompiler.py:37-43 | with an index other than 0 every DEX file goes to that index's directory |
| SmaliDecompiler.ApiLevelRule | ApkForge/smali_decompiler.py:141-158 | API level 21 for paths naming classes2.dex or classes3.dex, otherwise an all-digit `minSdkVersion`'s value, and 21 in every other case |
| SmaliDecompiler.BaksmaliCommand | ApkForge/smali_decompiler.py:121-131 | the baksmali command decompiles the DEX path into the target directory at the API level |
| SmaliDecompiler.Decompile | ApkForge/smali_decompiler.py:28-54 | success iff every baksmali run succeeds, returning the set of target directory names; otherwise the first failure's error after all earlier runs succeeded |
| SmaliDecompiler.AutoTargetsCount | ApkForge/smali_decompiler.py:37-113 | in auto mode the reported set has one directory per DEX file |
| SmaliDecompiler.FixedTargets | ApkForge/smali_decompiler.py:37-92 | in fixed mode the reported set is the single chosen directory |
| ApkAnalyzer.DexIndexOfDexDir | ApkForge/apk_analyzer.py:73-78 | a DEX directory's sort key is 1 for `smali` and N for `smali_classesN`; `smali` followed by the line break the anchored pattern lets through gets 999 |
| ApkAnalyzer.DexNames | ApkForge/apk_analyzer.py:57-62 | every collected name matches the DEX directory pattern |
| ApkAnalyzer.DexNamesExactly | ApkForge/apk_analyzer.py:57-62 | a name is collected exactly when a directory entry of the listing has it and it matches the pattern |
| ApkAnalyzer.CollectDexDirectories | ApkForge/apk_analyzer.py:60-62 | the loop collects the matching directories in listing order |
| ApkAnalyzer.SortDexDirectories | ApkForge/apk_analyzer.py:57-64 | the directories found so far and the new ones, sorted stably by DEX index |
| ApkAnalyzer.ApkAnalyzer.constructor | ApkForge/apk_analyzer.py:31-44 | the space threshold is the configured one or 10000, and every fact starts empty |
| ApkAnalyzer.ApkAnalyzer.FindDexDirectories | ApkForge/apk_analyzer.py:57-66 | the DEX directories are the old and the new ones sorted by index; multidex iff more than one; the count is their number; nothing else changes |
| ApkAnalyzer.ApkAnalyzer.SetDexDirectories | ApkForge/apk_analyzer.py:64-66 | the three DEX fields are set from the sorted list and nothing else changes |
| ApkAnalyzer.ApkAnalyzer.Analyze | ApkForge/apk_analyzer.py:48-55 | after `analyze` the DEX facts, the package, the SDK versions, the application class and the main activity are those of the listing and the manifest |
| ApkAnalyzer.ApkAnalyzer.AnalyzeManifestFacts | ApkForge/apk_analyzer.py:51-53 | the package, the manifest facts and the main activity are set; the DEX facts stay |
| ApkAnalyzer.ApkAnalyzer.AnalyzeManifest | ApkForge/apk_analyzer.py:87-123 | a missing or unparsable manifest changes nothing; otherwise the non-empty SDK versions are recorded and a non-empty application name replaces the application class |
| ApkAnalyzer.SdkInfo | ApkForge/apk_analyzer.py:103-109 | `min_sdk` is recorded iff it was there or the manifest gives a non-empty one |
| ApkAnalyzer.TargetPlacement | ApkForge/apk_analyzer.py:155-163 | the target is the index's directory name, reused iff it is already a DEX directory |
| ApkAnalyzer.ApkAnalyzer.FindOrCreateTargetDex | ApkForge/apk_analyzer.py:155-163 | the loop returns the existing directory of that name, or a new one |
| ApkAnalyzer.Loads | ApkForge/apk_analyzer.py:174-177 | one entry per DEX directory, in order, with its smali file count |
| ApkAnalyzer.LeastLoadedHead | ApkForge/apk_analyzer.py:171-187 | the head of the stably sorted loads has the fewest files, and every directory before it has more |
| ApkAnalyzer.ApkAnalyzer.FindLeastLoadedDex | ApkForge/apk_analyzer.py:171-187 | a new `smali` without DEX directories; otherwise the first least loaded directory |
| ApkAnalyzer.ApkAnalyzer.SuggestDexPlacement | ApkForge/apk_analyzer.py:140-153 | `smali` is created when there is no DEX directory; a given index picks its directory; otherwise the least loaded one |
| ApkAnalyzer.CloseFrom | ApkForge/apk_analyzer.py:230 | the end of the lazy attribute group is the first `/>` or `>`, and no `>` comes before it |
| ApkAnalyzer.FirstAppTag | ApkForge/apk_analyzer.py:230-247 | the leftmost `<application` tag followed by whitespace and a closing, and no match starts earlier |
| ApkAnalyzer.MultidexUpdate | ApkForge/apk_analyzer.py:189-195 | nothing is written with at most one DEX directory or without a manifest |
| ApkAnalyzer.MultidexGates | ApkForge/apk_analyzer.py:189-256 | the manifest is rewritten iff there are several DEX directories, it exists, it does not yet enable multidex and an application tag matches |
| ApkAnalyzer.AddMultidexEnables | ApkForge/apk_analyzer.py:232-245 | the replacement for the tag carries the multidex attribute, with or without the Android prefix |
| ApkAnalyzer.RewriteEnables | ApkForge/apk_analyzer.py:247 | the text with its first application tag replaced carries the attribute |
| ApkAnalyzer.MultidexAdded | ApkForge/apk_analyzer.py:228-256 | after the insertion the manifest enables multidex |
| ApkAnalyzer.MultidexOnce | ApkForge/apk_analyzer.py:203-211 | a second update of the rewritten manifest writes nothing |
| ApkAnalyzer.FileText | ApkForge/apk_analyzer.py:193-205 | a manifest is read exactly when it exists as a file |
| ApkAnalyzer.ApkAnalyzer.UpdateManifestForMultidex | ApkForge/apk_analyzer.py:189-256 | returns true iff the multidex update applies, and writes the manifest only then |
| ApkAnalyzer.ApkAnalyzer.FirstBuildConfigDir | ApkForge/apk_analyzer.py:270-277 | the first DEX directory holding the expected `BuildConfig.smali`, or none holds it |
| ApkAnalyzer.ApkAnalyzer.FindBuildConfigLoop | ApkForge/apk_analyzer.py:258-279 | the loop returns the expected file of the first DEX directory that has it, else the recursive search's result |
| ApkAnalyzer.BuildConfigOrder | ApkForge/apk_analyzer.py:258-279 | with a package, the earliest DEX directory holding the file wins; the recursive search is used iff none does |
| ApkAnalyzer.CopySmali | ApkForge/apk_analyzer.py:302-326 | no file disappears, and the count is the number of copies that do not raise |
| ApkAnalyzer.CopiedCount | ApkForge/apk_analyzer.py:306-320 | at most one per file, and all of them iff no copy raises |
| ApkAnalyzer.CopySmaliStep | ApkForge/apk_analyzer.py:307-314 | each file of the listing adds one step to the fold |
| ApkAnalyzer.CopySmaliKeeps | ApkForge/apk_analyzer.py:309-313 | a path no copy writes to keeps its content |
| ApkAnalyzer.CopySmaliContent | ApkForge/apk_analyzer.py:309-314 | with the target apart from the sources, each copied file has its source's content at its relative path under the target |
| ApkAnalyzer.CopySmaliFiles | ApkForge/apk_analyzer.py:302-326 | the loop's files and count are those of the fold |
| ApkAnalyzer.MergeSmaliFiles | ApkForge/apk_analyzer.py:281-300 | 0 and no change without a source directory or smali files; otherwise the suggested directory is created when new and the files are copied there as the fold says |
| ResourceManager.NewManager | ApkForge/resource_manager.py:20-29 | the source resources are `src_dir/<main>/<res>` with `main` and `res` by default, the target is `modded_dir/res` |
| ResourceManager.PutFile | ApkForge/resource_manager.py:117-136 | copies iff the target is missing or is not the same regular file, and says so; afterwards a non-directory target holds the source content, nothing else changes, and a directory target receives the file inside it |
| ResourceManager.MergeFile | ApkForge/resource_manager.py:117-136 | the in-place copy and its answer are those of the specification |
| Fs.MakeDir | ApkForge/resource_manager.py:94 | making a directory fails iff a file is in the way, and otherwise only adds the directory |
| ResourceManager.MakeDirectory | ApkForge/resource_manager.py:94 | the in-place `mkdir` follows the specification and changes nothing when it fails |
| ResourceManager.MergeDir | ApkForge/resource_manager.py:93-115 | a successful directory merge loses no file or directory and leaves the target directory in place |
| ResourceManager.MergeItems | ApkForge/resource_manager.py:98-105 | merging the entries loses no file or directory, and at most one file per entry is counted |
| ResourceManager.MergeDirectory | ApkForge/resource_manager.py:93-115 | the recursive in-place merge answers True exactly when the specification succeeds, with its file system, and raises its error otherwise |
| ResourceManager.MergeEntries | ApkForge/resource_manager.py:96-105 | the loop's file system, copy count and error are those of the specification |
| ResourceManager.MergeAllItems | ApkForge/resource_manager.py:76-91 | the top-level loop counts every source directory and the files copied at the top level |
| ResourceManager.CountGrows | ApkForge/resource_manager.py:46-52 | a merge that loses no file cannot lower the target's file count |
| ResourceManager.MergeResourcesSpec | ApkForge/resource_manager.py:31-52 | without a source directory nothing changes, no directory is merged and the existing target's file count is reported; after a merge nothing is lost, every top-level source directory is counted and the total is the target's file count |
| ResourceManager.CountTargetFiles | ApkForge/resource_manager.py:138-146 | the count is the number of files under the directory |
| ResourceManager.MergeResources | ApkForge/resource_manager.py:31-52 | the in-place merge gives the specification's counts, file system and error |
| ResourceManager.WalkInPaths | ApkForge/resource_manager.py:164-169 | every file the source walk visits is a path of the source tree |
| ResourceManager.NewExactly | ApkForge/resource_manager.py:171-182 | a path is new iff a walked source file has it and the target path does not exist |
| ResourceManager.UpdatedExactly | ApkForge/resource_manager.py:171-182 | a path is updated iff a walked source file has it and the target exists but is not a regular file with that content |
| ResourceManager.NewUpdatedDisjoint | ApkForge/resource_manager.py:171-182 | no path is both new and updated |
| ResourceManager.MissingExactly | ApkForge/resource_manager.py:184-200 | a path is missing iff the target walk has it and the source has no such path |
| ResourceManager.WalkedNotMissing | ApkForge/resource_manager.py:164-200 | a walked source file is never reported missing |
| ResourceManager.SourceDifferences | ApkForge/resource_manager.py:164-182 | the loop builds the new and updated lists in walk order |
| ResourceManager.MissingInTarget | ApkForge/resource_manager.py:184-200 | the loop builds the missing list in walk order |
| ResourceManager.ListResourceDifferences | ApkForge/resource_manager.py:148-162 | `{}` without a source; the missing list only when the target exists |
| AbiFilter.ABIFilter.constructor | ApkForge/abi_filter.py:31-45 | the lib directory is `modded_dir/lib`; `keep_only` defaults to no ABI, `remove_others` and `warn_if_missing` to true |
| AbiFilter.AbiDirs | ApkForge/abi_filter.py:91-100 | a listed name is found iff it is a directory whose name is one of the seven recognised ABIs; nothing is found iff no listed name is such a directory |
| AbiFilter.ABIFilter.FindAbiDirectories | ApkForge/abi_filter.py:91-100 | the loop finds exactly the recognised ABI directories, in listing order |
| AbiFilter.Kept | ApkForge/abi_filter.py:68-89 | a found directory is kept iff its name is to be kept or `remove_others` is false |
| AbiFilter.Removed | ApkForge/abi_filter.py:68-89 | a found directory is removed iff its name is not to be kept and `remove_others` is true |
| AbiFilter.KeptRemovedPartition | ApkForge/abi_filter.py:68-89 | every found directory is kept or removed, once; with `remove_others` false all are kept and none removed |
| AbiFilter.MissingAbis | ApkForge/abi_filter.py:102-112 | the missing ABIs are exactly the requested names that were not found |
| AbiFilter.Warned | ApkForge/abi_filter.py:102-112 | the warning names the missing ABIs when `warn_if_missing` is set and nothing otherwise |
| AbiFilter.ABIFilter.FilterNothing | ApkForge/abi_filter.py:48-63 | without a lib directory, without ABIs to keep, or without a recognised ABI directory, nothing is kept, removed or warned about |
| AbiFilter.ABIFilter.FilterRaises | ApkForge/abi_filter.py:91-98 | `filter` raises iff `lib` is a file and there are ABIs to keep, because `iterdir` then fails |
| AbiFilter.ABIFilter.FilterDecides | ApkForge/abi_filter.py:68-112 | kept, removed and warned names are characterised in terms of the listing, the keep set and the two flags |
| AbiFilter.ABIFilter.FilterAccounts | ApkForge/abi_filter.py:68-89 | kept and removed together account for every found directory, and nothing is removed when `remove_others` is false |
| AbiFilter.RemoveAllFilesExactly | ApkForge/abi_filter.py:114-129 | removing the trees loses exactly the files below a removed directory and changes no other file |
| AbiFilter.RemoveAllDirsExactly | ApkForge/abi_filter.py:114-129 | removing the trees loses exactly the directories below a removed directory |
| AbiFilter.ABIFilter.FilterSurvivors | ApkForge/abi_filter.py:68-89 | after the filter every kept directory still exists and the only files gone are those below removed directories |
| AbiFilter.ABIFilter.Partition | ApkForge/abi_filter.py:68-89 | the loop builds the kept and removed lists in order and removes exactly the removed trees |
| AbiFilter.ABIFilter.Filter | ApkForge/abi_filter.py:47-89 | `filter` returns the kept directories as paths, warns and removes as the specification decides, and changes nothing when it raises |
| AbiFilter.SoFiles | ApkForge/abi_filter.py:131-135 | a path is listed iff it is a listed name ending in `.so` inside the directory |
| AbiFilter.ABIFilter.LibraryFiles | ApkForge/abi_filter.py:131-135 | nothing when the ABI directory is absent; otherwise exactly its `.so` entries |
| AbiFilter.ABIFilter.CollectLibraryFiles | ApkForge/abi_filter.py:137-144 | the loop gathers the `.so` entries of each kept directory in order |
| AbiFilter.ABIFilter.GetAllLibraryFiles | ApkForge/abi_filter.py:137-144 | `filter` first, then the `.so` entries of every kept directory, or the error of `filter` |
| LibraryDeployer.MatchesTargetIsSubstring | ApkForge/library_deployer.py:199-208 | the three tests of `_matches_target` hold iff the lowercased target name is a substring of the lowercased library name |
| LibraryDeployer.ShouldInclude | ApkForge/library_deployer.py:82-87 | every library is included without a target name; with one, exactly those whose name contains it, ignoring case |
| LibraryDeployer.ShouldIgnoreExactly | ApkForge/library_deployer.py:188-197 | a path is ignored iff it contains `CMakeFiles`, `_deps`, `Testing` or `.cmake`, or its file name contains `test` in any case |
| LibraryDeployer.DetectAbi | ApkForge/library_deployer.py:210-229 | the detected ABI is always one of the seven ABIs the filter knows |
| LibraryDeployer.DetectAbiFirst | ApkForge/library_deployer.py:210-229 | the ABI is that of the first key of the table, in its order, contained in the lowercased path |
| LibraryDeployer.DetectAbiDefault | ApkForge/library_deployer.py:229 | a path containing no key is taken as `arm64-v8a` |
| LibraryDeployer.V7aNotArmeabi | ApkForge/library_deployer.py:214-225 | a path naming `armeabi-v7a` is never detected as `armeabi` |
| LibraryDeployer.X64NotX86 | ApkForge/library_deployer.py:214-225 | a path naming `x86_64` or `x64` is never detected as `x86` |
| LibraryDeployer.AndroidExactly | ApkForge/library_deployer.py:122-127 | a library is deployed as an Android library iff its name ends in `.so`, in any case, after a non-empty stem |
| LibraryDeployer.Select | ApkForge/library_deployer.py:53-80 | a path survives a search loop iff it is listed, is not ignored (in the build-tree search) and passes the name filter |
| LibraryDeployer.LibraryDeployer.FoundLibraries | ApkForge/library_deployer.py:29-46 | the build tree is searched only when the target's `lib/arm64-v8a` yields nothing |
| LibraryDeployer.LibraryDeployer.FoundLibrariesExactly | ApkForge/library_deployer.py:29-80 | a found library is a `.so` entry of the target's `lib/arm64-v8a` accepted by the name filter, or else a build-tree `.so` file that is not ignored and is accepted |
| LibraryDeployer.LibraryDeployer.SearchInTargetDir | ApkForge/library_deployer.py:48-62 | the in-place search of the target directory gives the specified list, and nothing when the directory is absent |
| LibraryDeployer.LibraryDeployer.SelectLoop | ApkForge/library_deployer.py:53-80 | the loop keeps exactly the surviving paths in listing order |
| LibraryDeployer.LibraryDeployer.FindBuiltLibraries | ApkForge/library_deployer.py:29-46 | the in-place search returns the specified libraries |
| LibraryDeployer.LibraryDeployer.DeploySkips | ApkForge/library_deployer.py:122-151 | a library of unknown type, and a `.so` path that does not exist, leave the file system unchanged |
| LibraryDeployer.LibraryDeployer.DeployCopies | ApkForge/library_deployer.py:132-186 | a deployed regular file lands at `lib/<abi>/<name>` or `libs/<name>` with its content, unless a directory is in the way |
| LibraryDeployer.LibraryDeployer.DeployKeepsOthers | ApkForge/library_deployer.py:132-186 | deploying changes no file but the destination and removes no directory |
| LibraryDeployer.LibraryDeployer.RedeployFromTargetIsNoop | ApkForge/library_deployer.py:153-163 | a `.so` library already in the target's `lib/arm64-v8a` is recognised as deployed, and deploying it changes nothing |
| LibraryDeployer.MakeAbiDir | ApkForge/library_deployer.py:137-138 | `mkdir(parents=True, exist_ok=True)` succeeds iff no file is in the way of the ABI directory or of `lib`, adds the directory and changes no file |
| LibraryDeployer.CopyLibrary | ApkForge/library_deployer.py:172-186 | the destination receives the source's content; a directory in the way changes nothing; a missing source leaves the destination removed; no exception escapes |
| LibraryDeployer.LibraryDeployer.DeployEachStops | ApkForge/library_deployer.py:119-120 | once deploying a library raises, the later libraries are not deployed and the error is reported |
| LibraryDeployer.LibraryDeployer.DeploySingleLibrary | ApkForge/library_deployer.py:122-145 | the in-place deployment follows the specification and an escaping `mkdir` error leaves the file system unchanged |
| LibraryDeployer.LibraryDeployer.DeployEachLibrary | ApkForge/library_deployer.py:119-120 | the loop deploys the libraries in order and stops at the first error |
| LibraryDeployer.LibraryDeployer.DeployLibraries | ApkForge/library_deployer.py:102-120 | nothing for an empty list; `iterdir` of a target that is not a directory raises; otherwise the libraries are deployed in order |
| ToolFinder.FirstWhereLoop | ApkForge/tool_finder.py:127-133 | the loop over candidates returns the first one that passes the test, or nothing when none does |
| ToolFinder.ProbeOrder | ApkForge/tool_finder.py:39-73 | a hit on PATH wins, then the SDK result (its error included), then the first fixed place that exists; nothing is found only when all three fail |
| ToolFinder.ToolFinder.SdkCmakeFails | ApkForge/tool_finder.py:111-119 | the SDK search for CMake raises exactly when the SDK exists and its `cmake` is a file |
| ToolFinder.ToolFinder.SdkCmakeMissing | ApkForge/tool_finder.py:111-133 | the SDK search for CMake finds nothing exactly when no listed version directory holds `bin/cmake` |
| ToolFinder.ToolFinder.SdkCmakeLatest | ApkForge/tool_finder.py:119-131 | the CMake found is `bin/cmake` of a version directory that has it and whose name is the largest among those that have it |
| ToolFinder.LatestWith | ApkForge/tool_finder.py:123-131 | trying names from the largest down finds the largest name that passes the test, and nothing only when no name passes |
| ToolFinder.ToolFinder.SdkNinjaFails | ApkForge/tool_finder.py:135-145 | the SDK search for Ninja raises exactly when the SDK exists and its `cmake` is a file |
| ToolFinder.ToolFinder.SdkNinjaMissing | ApkForge/tool_finder.py:135-154 | the SDK search for Ninja finds nothing exactly when no listed version directory holds `bin/ninja` |
| ToolFinder.ToolFinder.SdkNinjaFirst | ApkForge/tool_finder.py:143-152 | the Ninja found is `bin/ninja` of the first version directory, in listing order, that has it |
| ToolFinder.ToolFinder.NdkCandidates | ApkForge/tool_finder.py:200-218 | the candidates are the subdirectories of `ndk`, `ndk-bundle` when it exists, and the subdirectories of `ndk/side-by-side`; listing raises iff either listed directory is a file |
| ToolFinder.ToolFinder.FindNdk | ApkForge/tool_finder.py:75-89 | nothing without an existing SDK or without candidates; the error of the collection otherwise |
| ToolFinder.ToolFinder.FindNdkLatest | ApkForge/tool_finder.py:84-89 | the NDK found is a candidate of the largest version, the first such in collection order |
| ToolFinder.NdkVersion | ApkForge/tool_finder.py:220-239 | the version is read from the first three dot-separated parts of the name without `android-ndk-` and `ndk-`, each part giving the number of its digits, missing parts 0 |
| ToolFinder.ParseNdkVersion | ApkForge/tool_finder.py:220-239 | the loops compute the specified version of the path's last component |
| ToolFinder.ParseParts | ApkForge/tool_finder.py:227-239 | the loops give the values of the first three parts padded with zeros |
| ToolFinder.KeepDigits | ApkForge/tool_finder.py:230 | the kept characters are all digits |
| ToolFinder.KeepAllDigits | ApkForge/tool_finder.py:230 | a part made of digits is kept whole |
| ToolFinder.KeepDigitsAppend | ApkForge/tool_finder.py:230 | keeping digits distributes over concatenation |
| ToolFinder.DottedVersion | ApkForge/tool_finder.py:224-239 | a side-by-side name `a.b.c` parses to `(a, b, c)` |
| ToolFinder.OldStyleVersion | ApkForge/tool_finder.py:224-239 | an old-style `android-ndk-r<N><letter>` name parses to `(N, 0, 0)` |
| Order.FirstMaxTriple | ApkForge/tool_finder.py:84-86 | the key chosen is a largest one and the first largest, as a stable descending sort puts it first |
| ToolFinder.ToolFinder.JavaHomeFromEnvironment | ApkForge/tool_finder.py:92-97 | a `JAVA_HOME` that holds `bin/java` is returned |
| ToolFinder.ToolFinder.JavaHomeFromPath | ApkForge/tool_finder.py:99-107 | otherwise a `java` on PATH at `<home>/bin/<exe>` gives `<home>` exactly when `<home>/bin` holds `javac` |
| ToolFinder.ToolFinder.JavaHomeMissing | ApkForge/tool_finder.py:91-109 | without a usable `JAVA_HOME` and without `java` on PATH nothing is found |
| ApkSigner.VersionDirs | ApkForge/apk_signer.py:44-55 | every listed subdirectory whose first two dot parts are digit strings is collected, and nothing else is |
| ApkSigner.CollectBuildTools | ApkForge/apk_signer.py:44-55 | the loop over the listing collects exactly the version directories, in listing order |
| ApkSigner.VersionKeyDotted | ApkForge/apk_signer.py:59-68 | a name `a.b.c` of plain numbers has the key `(a, b, c)` |
| ApkSigner.VersionKeyTwoParts | ApkForge/apk_signer.py:59-68 | a name `a.b` has the key `(a, b, 0)`: a missing part counts as 0 |
| ApkSigner.VersionKeyRejected | ApkForge/apk_signer.py:59-68 | one of the first three parts that `int` rejects makes the whole key `(0, 0, 0)` |
| ApkSigner.SelectLatestMax | ApkForge/apk_signer.py:57-71 | the chosen directory has a largest key, and no earlier candidate has a key as large |
| ApkSigner.ApkSigner.FindBuildToolsFails | ApkForge/apk_signer.py:28-42 | a missing build-tools directory or one without a version directory raises FileNotFoundError with the source's message; a file in its place makes the listing raise |
| ApkSigner.ApkSigner.FindBuildToolsLatest | ApkForge/apk_signer.py:28-42 | the result is a listed version directory whose key is at least that of every version directory |
| ApkSigner.AltPaths | ApkForge/apk_signer.py:85-93 | each alternative name is looked up inside the build-tools directory, in the given order |
| ApkSigner.FindToolOrder | ApkForge/apk_signer.py:85-104 | the exact name wins, then the first existing alternative, then what `which` finds; FileNotFoundError `<tool> not found` when all fail |
| ApkSigner.FindToolLoop | ApkForge/apk_signer.py:85-104 | the loop with its `break` returns what the lookup order prescribes |
| ApkSigner.ApkSigner.LocateTools | ApkForge/apk_signer.py:73-83 | both tools are found or the first failing lookup's error is raised, `zipalign` before `apksigner` |
| ApkSigner.LauncherShape | ApkForge/apk_signer.py:147-152 | a `.jar` signer is started through `java -jar`, anything else directly; the signer's path ends the launcher |
| ApkSigner.ReadFlattened | ApkForge/apk_signer.py:154-165 | options written as name and value, followed by a last argument, are read back as the same options in order |
| ApkSigner.SignCommandRead | ApkForge/apk_signer.py:147-169 | the signing command is the launcher, `sign`, the keystore, alias, both `pass:` passwords, the four schemes enabled and the output, then the input APK last |
| ApkSigner.VerifyCommandShape | ApkForge/apk_signer.py:171-182 | the verification command uses the same launcher, then `verify --verbose --print-certs` and the signed APK |
| ApkSigner.CheckResultAsChecked | ApkForge/apk_signer.py:184-190 | a step fails exactly on a non-zero return code, with `<step> failed: ` and the truncated error output, as `run_command_checked` reports it |
| ApkSigner.ZipalignOutcome | ApkForge/apk_signer.py:106-123 | alignment succeeds exactly when `zipalign` starts and returns 0; every failure is a RuntimeError |
| DexConverter.StricterThanSigner | ApkForge/dex_converter.py:72-84 | a build-tools name must have at least two dot parts with the first two digit strings: exactly the signer's test plus a dot |
| DexConverter.SingleNumberRejected | ApkForge/dex_converter.py:72-84 | a single number such as `34` is a version directory for the signer but not for the converter |
| DexConverter.VersionDirs | ApkForge/dex_converter.py:72-84 | every listed subdirectory with a version name is collected, and nothing else is |
| DexConverter.CollectVersions | ApkForge/dex_converter.py:72-84 | the loop over the listing collects exactly the version directories, in listing order |
| DexConverter.Values | ApkForge/dex_converter.py:88-101 | each part is read by `int` independently, 0 where `int` raises |
| DexConverter.ParseComponents | ApkForge/dex_converter.py:88-101 | the loops read at most three components and pad with zeros to a triple |
| DexConverter.ParseVersion | ApkForge/dex_converter.py:88-101 | `parse_version` of a name is its triple of component values |
| DexConverter.VersionOfDotted | ApkForge/dex_converter.py:88-101 | a name `a.b.c` of plain numbers has the version `(a, b, c)` |
| DexConverter.VersionOfTwoParts | ApkForge/dex_converter.py:88-101 | a name `a.b` has the version `(a, b, 0)` |
| DexConverter.RejectedComponent | ApkForge/dex_converter.py:88-101 | a third part `int` rejects counts as 0 and keeps the others, where the signer's key drops to `(0, 0, 0)` |
| DexConverter.AgreesWithSigner | ApkForge/dex_converter.py:88-101 | where `int` reads every one of the first three parts, the converter's version equals the signer's key |
| DexConverter.LatestIn | ApkForge/dex_converter.py:87-104 | the chosen directory is a candidate whose version is at least that of every candidate |
| DexConverter.SelectLatestMax | ApkForge/dex_converter.py:87-104 | no candidate before the chosen one has as large a version |
| DexConverter.FindBuildToolsOrder | ApkForge/dex_converter.py:52-69 | the SDK's `build-tools` wins when the SDK and it exist, then `ANDROID_HOME`'s; whatever is found exists |
| DexConverter.FindBuildToolsMissing | ApkForge/dex_converter.py:52-69 | nothing is found when the SDK's directory is absent and no set variable has an existing `build-tools` |
| DexConverter.EnvBuildTools | ApkForge/dex_converter.py:58-67 | only set, non-empty variables contribute their `build-tools` path, in order |
| DexConverter.LocateD8First | ApkForge/dex_converter.py:106-116 | the tool is the first name of the list present in the version directory; FileNotFoundError `D8/DX not found in <dir>` exactly when none is |
| DexConverter.LocateD8Loop | ApkForge/dex_converter.py:106-116 | the loop returning at the first hit gives the same result |
| DexConverter.D8BeforeDx | ApkForge/dex_converter.py:118-131 | each platform's list holds `d8` and `dx` forms and puts every `d8` form before every `dx` form |
| DexConverter.PrefersD8 | ApkForge/dex_converter.py:106-131 | when any `d8` form is present, a `d8` form is chosen, never `dx` |
| DexConverter.DexCommand | ApkForge/dex_converter.py:139-148 | the command is `d8`, the jar, `--lib` with the platform jar, `--output` with the directory, `--min-api` with the level |
| DexConverter.DexConverter.FindD8Fails | ApkForge/dex_converter.py:27-44 | FileNotFoundError without a build-tools directory, and with the directory's path when it holds no version directory |
| DexConverter.DexConverter.FindD8Latest | ApkForge/dex_converter.py:27-50 | the tool is looked up in a listed version directory with the largest version |
| DexConverter.DexConverter.ConvertOutcome | ApkForge/dex_converter.py:133-162 | the DEX files are returned exactly when `d8` is found, exits 0 and some DEX file results; a failed run or no DEX file raises RuntimeError |
| Decompiler.TruncateAsPlatform | ApkForge/decompiler.py:81-84 | a text of at most 500 characters is kept, a longer one keeps its first 500 and gains `...`, the same cut `run_command_checked` makes |
| Decompiler.GetErrorOutput | ApkForge/decompiler.py:76-79 | stderr when not empty, else stdout when not empty, else `No error output`; never empty |
| Decompiler.LastLines | ApkForge/decompiler.py:97-100 | the last three lines, or all of them when there are at most three |
| Decompiler.BuildCommandShape | ApkForge/decompiler.py:56-66 | the command is `java -jar <apktool> d -f <source> -o <output>` |
| Decompiler.RunCommand | ApkForge/decompiler.py:27-39 | a process that starts gives its result; one that cannot start raises RuntimeError naming the command |
| Decompiler.CheckResultOutcome | ApkForge/decompiler.py:68-74 | the check fails exactly on a non-zero code, with the code in the header and the error output, never empty and at most 503 characters, after it |
| Decompiler.Decompiler.OutcomeExactly | ApkForge/decompiler.py:41-50 | decompiling succeeds exactly when apktool starts and returns 0; every failure is a RuntimeError |
| Decompiler.Decompiler.Decompile | ApkForge/decompiler.py:41-54 | the output directory's tree is removed first when it is a directory, nothing else changes, and the result is that of the run |
| ApkBuilder.RemoveNothing | ApkForge/apk_builder.py:67-76 | a text without whitespace followed by the attribute is left unchanged |
| ApkBuilder.RemoveJoined | ApkForge/apk_builder.py:72-73 | no removal spans the join of a text ending in a non-whitespace character and one starting with whitespace |
| ApkBuilder.RemoveLeading | ApkForge/apk_builder.py:72-73 | whitespace followed by the attribute is removed together with it |
| ApkBuilder.RemoveOccurrence | ApkForge/apk_builder.py:72-73 | an occurrence after whitespace is removed with that whitespace, and the text on each side is treated on its own |
| ApkBuilder.RemoveMultidexKeeps | ApkForge/apk_builder.py:67-76 | a manifest in which neither attribute follows whitespace is written back unchanged |
| ApkBuilder.RemoveMultidexOccurrence | ApkForge/apk_builder.py:72-73 | each pass removes every whitespace-prefixed occurrence of its attribute and leaves the text around it to be treated on its own |
| ApkBuilder.BuildCommandShape | ApkForge/apk_builder.py:28-36 | the command is `java -jar <apktool> b <modded dir> -o <output apk>` |
| ApkBuilder.CheckResultAsChecked | ApkForge/apk_builder.py:78-84 | a step fails exactly on a non-zero return code, with `<step> failed: ` and stderr (else stdout) cut to 500 characters plus `...` |
| ApkBuilder.NoRetryWithoutMarker | ApkForge/apk_builder.py:38-44 | without the `android:multiDexEnabled` complaint no file changes and the build succeeds exactly on a zero code, raising the check's error otherwise |
| ApkBuilder.RetryWithoutManifest | ApkForge/apk_builder.py:40-65 | a failure naming the attribute retries; without the manifest the result is `False`, nothing changes and no rebuild happens |
| ApkBuilder.RetryWithManifest | ApkForge/apk_builder.py:46-76 | the retry rewrites only the manifest, to the text without the attribute, and succeeds exactly when the rebuild returns 0 |
| ApkBuilder.BuildFalseOnlyWithoutManifest | ApkForge/apk_builder.py:24-65 | `build` returns `False` exactly for a retry without the manifest; a process that cannot start is a RuntimeError |
| ApkBuilder.ApkBuilder.Build | ApkForge/apk_builder.py:24-44 | the result and the files are those `BuildSpec` gives; directories do not change |
| ApkBuilder.ApkBuilder.RetryWithoutMultidex | ApkForge/apk_builder.py:46-65 | the result and the files are those `RetrySpec` gives; directories do not change |
| ApkBuilder.ApkBuilder.RemoveMultidexFromManifest | ApkForge/apk_builder.py:67-76 | the manifest's content is replaced by the text without the attributes, and nothing else changes |
| Config.PathOf | ApkForge/config.py:35 | `Path(v or "")`: a false value gives `.`, a non-empty string gives itself, a true non-string value raises TypeError |
| Config.LoadOutcome | ApkForge/config.py:25-41 | a missing file raises FileNotFoundError with its path; text that is not JSON raises ValueError; a successful load comes from a decoded object, always stores a non-empty path and takes alias and both passwords as `get` returns them |
| Config.MissingFieldsExactly | ApkForge/config.py:44-52 | a required field is listed exactly when it is missing (falsy, or None for the path) |
| Config.MissingFieldsOrdered | ApkForge/config.py:44-52 | the listed names are required fields in the fixed order path, alias, password, key password, none twice |
| Config.ValidateOutcome | ApkForge/config.py:54-65 | missing fields raise ValueError naming them and leave the path alone; otherwise the path is made absolute against the project root and resolved, and validation returns True exactly when it exists, else FileNotFoundError naming it |
| Config.MissingPathAccepted | ApkForge/config.py:35 | a configuration without `keystore_path` loads the path `.` and validates with the project root directory as the keystore |
| Config.MissingPathReported | ApkForge/config.py:44-55 | with the corrected load, a false keystore path makes validation raise ValueError naming `keystore_path` first; a true one loads as before |
| Config.KeystoreConfig.constructor | ApkForge/config.py:17-23 | stores the configuration path and project root and starts with every field None |
| Config.KeystoreConfig.Load | ApkForge/config.py:25-41 | returns what the load specification gives and assigns its fields on success, leaving them unchanged on every error |
| Config.KeystoreConfig.Validate | ApkForge/config.py:43-65 | gathers the missing fields one by one; its result and the new path are the validate specification's |
| PathManager.IsAbsolutePathCases | ApkForge/path_manager.py:27-49 | anything but a string is not absolute; a leading `/` is absolute off Windows; a `~` path is absolute exactly when it holds both `${` and `}`, or on Windows has `:` second |
| PathManager.TildeNotAbsolute | ApkForge/path_manager.py:43-49 | a `~` path without `${` is not absolute, except the Windows form with `:` second |
| PathManager.ExpandEnvPlain | ApkForge/path_manager.py:92-100 | text in which no `${` occurs is left unchanged by the substitution |
| PathManager.ExpandEnvUnset | ApkForge/path_manager.py:95-100 | with no variable set, every `${NAME}` stays literally in place and the text is unchanged |
| PathManager.ExpandEnvVariable | ApkForge/path_manager.py:92-100 | after plain text, `${NAME}` with a non-empty name without `}` becomes the variable's value, or stays as written when unset, and the scan continues after the closing brace |
| PathManager.ResolveEmpty | ApkForge/path_manager.py:54-63 | the result is no path exactly for None and blank strings; any other non-string raises ValueError naming its type and the context, and only such a value raises ValueError |
| PathManager.ResolveHome | ApkForge/path_manager.py:65-67 | `~` and `~/…` become the current user's home followed by the rest, resolved, without `${}` expansion |
| PathManager.ResolveAfterExpansion | ApkForge/path_manager.py:69-90 | a non-blank path without a leading `~` is resolved from its `${}`-expanded text, which is the text itself when no `${` occurs |
| PathManager.AbsoluteKept | ApkForge/path_manager.py:72-73 | a path the platform calls absolute is resolved as it is |
| PathManager.DriveRelativeFixed | ApkForge/path_manager.py:75-84 | on Windows `C:x` is resolved as `C:/x` with every backslash turned into `/`, a form the platform calls absolute |
| PathManager.RelativeInRoot | ApkForge/path_manager.py:86-90 | any other path is resolved inside the project root |
| PathManager.SetKeysExactly | ApkForge/path_manager.py:172-181 | a key is set by a rule list exactly when some rule for it has a default or a true configured value |
| PathManager.ApplyRuleOutcome | ApkForge/path_manager.py:197-199 | one pass adds its key exactly when `config_val or default` is true, with that value resolved, and changes no other key; a section that is not a dictionary raises AttributeError |
| PathManager.ApplyRulesKeys | ApkForge/path_manager.py:172-181 | a loop adds exactly the keys of the rules that set; a non-dictionary section raises AttributeError |
| PathManager.ApplyRulesOthers | ApkForge/path_manager.py:192-199 | a loop leaves every key that none of its rules names as it was |
| PathManager.ApplyRulesValue | ApkForge/path_manager.py:172-181 | with distinct keys, each rule that sets leaves its key holding the resolved `config_val or default` |
| PathManager.LoadConfig | ApkForge/path_manager.py:147-155 | the decoded file, or `{}` when it is missing, a directory or not valid JSON |
| PathManager.PathManager.constructor | ApkForge/path_manager.py:114-135 | the manager keeps the project root, the `paths` section, the resolver and the detected SDK |
| PathManager.PathManager.ApplyAll | ApkForge/path_manager.py:172-181 | the loop over a rule list gives the table the rules give applied in order, stopping at the first error |
| PathManager.PathManager.ResolveDirectoryPaths | ApkForge/path_manager.py:168-187 | the directory stage computes the table of PathManager.PathManager.DirectoryStage |
| PathManager.PathManager.DirectoryStage | ApkForge/path_manager.py:168-187 | the three directories are always set from the configured value or OriginalGame, ModdedGame, src; `decompiled_dir` only when configured; nothing else changes; a non-dictionary configuration raises |
| PathManager.PathManager.ResolveToolPaths | ApkForge/path_manager.py:189-207 | the tool stage computes the table of PathManager.PathManager.ToolStage |
| PathManager.PathManager.ToolStage | ApkForge/path_manager.py:189-207 | each tool is set only when configured; the SDK from its configured value, else from the detector when it finds one; nothing else changes |
| PathManager.PathManager.ResolveOutputPaths | ApkForge/path_manager.py:209-219 | the output stage computes the table of PathManager.PathManager.OutputStage |
| PathManager.PathManager.OutputStage | ApkForge/path_manager.py:209-219 | each output directory is set only when configured, resolved in the context of its path key; nothing else changes |
| PathManager.PathManager.ResolveLibsPath | ApkForge/path_manager.py:221-231 | the libraries stage computes the table of PathManager.PathManager.LibsStage |
| PathManager.PathManager.LibsStage | ApkForge/path_manager.py:221-231 | `libs_dir` is set only when configured and resolved to a path; nothing else changes |
| PathManager.PathManager.ResolveKeystorePath | ApkForge/path_manager.py:237-240 | the keystore stage computes the table of PathManager.PathManager.KeystoreStage |
| PathManager.PathManager.KeystoreStage | ApkForge/path_manager.py:237-240 | `keystore_config` is always set, from the configured value when true and from `keystore.json` otherwise; it fails exactly when that resolution fails |
| PathManager.PathManager.GetPaths | ApkForge/path_manager.py:157-166 | the method builds the table of PathManager.PathManager.PathTable, stage by stage |
| PathManager.PathManager.PathTableKeys | ApkForge/path_manager.py:157-166 | the table always holds the project root, the three directories and the keystore configuration and only known keys, with the manager's root; a non-dictionary `paths` section raises |
| PathManager.PathManager.DirectoryStageKeys | ApkForge/path_manager.py:168-187 | after the directory stage the table holds exactly the earlier keys, the three directory keys and `decompiled_dir` when it is configured |
| PathManager.PathManager.DirectoryStageValues | ApkForge/path_manager.py:168-187 | each of the three directories holds its configured value when that is true, resolved, and else its default OriginalGame, ModdedGame or src under the root |
| PathManager.PathManager.DirectoryStageOthers | ApkForge/path_manager.py:168-187 | every other key keeps its value; a `paths` section that is not a dictionary makes the stage raise |
| ProjectConfig.Subscript | ApkForge/project_config.py:67-81 | `v[key]` succeeds exactly on a dictionary holding the key and gives its value; on a dictionary the failure is KeyError, on anything else TypeError |
| ProjectConfig.ReadAllOutcome | ApkForge/project_config.py:66-81 | the required fields are read iff every lookup succeeds, in field order; a KeyError means some section or key is missing; with dictionary sections a missing key always gives KeyError |
| ProjectConfig.LookupMissing | ApkForge/project_config.py:67-81 | a lookup whose section or key is missing fails with KeyError |
| ProjectConfig.LookupKeyError | ApkForge/project_config.py:67-81 | a lookup that fails with KeyError has its section or key missing |
| ProjectConfig.LookupSections | ApkForge/project_config.py:67-81 | in a dictionary whose section is a dictionary, a failing lookup fails with KeyError |
| ProjectConfig.Construct | ApkForge/project_config.py:64-87 | the record is built iff `abi` is a dictionary; it holds the fifteen required values as read, the raw data, and each ABI entry or its default |
| ProjectConfig.ParseWithOutcome | ApkForge/project_config.py:60-96 | a parsed record comes from a dictionary and holds each required field's lookup; a KeyError names a missing field, and a missing field always gives KeyError when the sections are dictionaries |
| ProjectConfig.LoadOutcome | ApkForge/project_config.py:51-96 | a missing `build_config.json` raises FileNotFoundError; a present one fails only with KeyError or RuntimeError; a loaded record holds the decoded file's required fields |
| ProjectConfig.LoadDecoded | ApkForge/project_config.py:60-96 | for a decoded file, a KeyError is re-raised as KeyError with the prefix and every other failure as RuntimeError, and a parsed record is returned as is |
| ProjectConfig.LoadKeyError | ApkForge/project_config.py:93-94 | a KeyError from `load` means a required key of the decoded file is missing, and a missing key always gives the prefixed KeyError |
| ProjectConfig.AbiDefaults | ApkForge/project_config.py:82-85 | without an `abi` section, keep_only and build_abis are empty and remove_others and warn_if_missing are true |
| ProjectConfig.Assign | ApkForge/project_config.py:156 | `setattr` gives the attribute the new value and leaves every other attribute as it was |
| ProjectConfig.IntConvertRoundTrip | ApkForge/project_config.py:142 | the `int` converter reads back the decimal text of any integer |
| ProjectConfig.BoolConvertCaseless | ApkForge/project_config.py:148 | the auto-multidex converter ignores letter case |
| ProjectConfig.LowerTwice | ApkForge/project_config.py:148 | lowering is idempotent |
| ProjectConfig.ApplyEnvOthers | ApkForge/project_config.py:152-160 | an attribute no mapping names keeps its value |
| ProjectConfig.ApplyEnvValue | ApkForge/project_config.py:152-160 | with distinct attributes, each mapped attribute ends with the converted variable when the variable is set and converts, and keeps its value otherwise |
| ProjectConfig.EnvMappingsDistinct | ApkForge/project_config.py:141-149 | the seven mappings name seven distinct attributes, one for each of the settings |
| ProjectConfig.UpdateFromEnvValues | ApkForge/project_config.py:140-162 | after `update_from_env` each setting holds its converted variable when that is set and converts, and its old value otherwise |
| ProjectConfig.ApplyEnvUnset | ApkForge/project_config.py:151-162 | with none of the variables set, nothing changes |
| ProjectConfig.SettingsDictRoundTrip | ApkForge/project_config.py:129-138 | `to_dict` has exactly the seven keys and the settings can be read back from it |
| ProjectConfig.ShouldSkip | ApkForge/project_config.py:123-124 | `in` raises TypeError exactly when `skip_files` is neither a list, a string nor a dictionary |
| ProjectConfig.ShouldSkipExact | ApkForge/project_config.py:123-124 | for a list of names a file is skipped exactly when its name is one of them |
| ProjectConfig.Slash | ApkForge/project_config.py:126-127 | `root / p` succeeds iff `p` is a string; an absolute `p` is the result; a relative one lies under the root |
| ProjectConfig.KeepExisting | ApkForge/project_config.py:113-121 | the loop returns the full paths of the existing items, in order, failing at the first item that is not a path |
| ProjectConfig.ExistingUnderStep | ApkForge/project_config.py:115-120 | one step of the loop: a non-path item raises, an existing full path is kept first, a missing one is dropped |
| ProjectConfig.ExistingUnderAppend | ApkForge/project_config.py:113-121 | over path items, the result for two lists joined is the two results joined |
| ProjectConfig.ExistingUnderExactly | ApkForge/project_config.py:113-121 | over path items, a path is returned exactly when it exists and is the full path of some item; when all exist the result is every full path in order |
| ProjectConfig.ProjectConfig.constructor | ApkForge/project_config.py:19-48 | the object holds exactly the record's fields |
| ProjectConfig.ProjectConfig.SetAttribute | ApkForge/project_config.py:156 | the settings become those of ProjectConfig.Assign |
| ProjectConfig.ProjectConfig.UpdateWith | ApkForge/project_config.py:151-162 | the settings become the mappings applied in order, and the result is true iff some mapping applied |
| ProjectConfig.ProjectConfig.UpdateFromEnv | ApkForge/project_config.py:140-162 | the seven mappings applied in order; the result is true iff one of the variables was set and converted |
| ProjectConfig.ProjectConfig.GetAbsolutePaths | ApkForge/project_config.py:113-121 | iterating `additional_smali_dirs` and keeping the existing full paths, failing when it is not iterable |
| ProjectConfig.ConfigRegistry.Init | ApkForge/project_config.py:168-171 | the global is set to the loaded object iff `load` succeeds; on failure the error is `load`'s and the global is unchanged |
| ProjectConfig.ConfigRegistry.GetConfig | ApkForge/project_config.py:174-180 | RuntimeError with the not-initialised text iff the global is unset, else the global |
| NativeBuildConfig.BuildTypeOf | ApkForge/native_build_config.py:43-44 | the build type has no upper-case letters; it is the lowered configured type, "release" when the section or the type is absent, and only a configured type differs from "release" |
| NativeBuildConfig.LoadBuildTypeOutcome | ApkForge/native_build_config.py:37-49 | the result has no upper-case letters; a result other than "release" comes from a configured type; a configured type gives its lowered text; an absent one gives "release" |
| NativeBuildConfig.DetectTargetAbi | ApkForge/native_build_config.py:51-70 | the ABI is non-empty and starts with a word character |
| NativeBuildConfig.DetectTargetAbiOutcome | ApkForge/native_build_config.py:51-70 | without CMakeLists.txt or a match the ABI is arm64-v8a; otherwise it is the group of the leftmost match |
| NativeBuildConfig.ParseTargetLibraryName | ApkForge/native_build_config.py:72-92 | a library name is a non-empty run of word characters |
| NativeBuildConfig.LibraryNameOrder | ApkForge/native_build_config.py:72-92 | the `add_library` name wins, then the `project` name; there is none iff the file is missing or neither pattern matches |
| NativeBuildConfig.QuotedAbiRead | ApkForge/native_build_config.py:61 | on `set(ANDROID_ABI "x86")` the pattern reads `x86` |
| NativeBuildConfig.NativeBuildConfig.constructor | ApkForge/native_build_config.py:20-35 | the three paths are stored, and the build type, target ABI and library name are read in that order |
| NativeBuildConfig.NativeBuildConfig.GetCmakeArgs | ApkForge/native_build_config.py:103-132 | the ten configure arguments in order, then the toolchain, ABI and STL arguments exactly when an NDK is set and its toolchain file exists |
| NativeBuildConfig.NativeBuildConfig.GetBuildArgs | ApkForge/native_build_config.py:134-141 | the build command in the capitalised build type |
| NativeBuildConfig.DefaultBuildTypeCapitalized | ApkForge/native_build_config.py:49 | the default build type reaches CMake as "Release" |
| CppBuilder.ConstructionError | ApkForge/cpp_builder.py:31-38 | construction fails iff `project_root` is missing (KeyError, checked first) or no CMakeLists path is given (ValueError) |
| CppBuilder.CheckPrerequisites | ApkForge/cpp_builder.py:59-89 | a missing CMakeLists file is unmet first; then a missing `android_sdk` raises KeyError; then an exception of `find_cmake`, then of `find_ninja`, is raised; then a missing CMake, then a missing Ninja, is unmet; then an exception of `find_ndk` is raised; the tools are ready exactly when all are present and nothing raised |
| CppBuilder.FirstRaisedFrom | ApkForge/cpp_builder.py:186-189 | the first ABI at or after a position whose build raised, every ABI before it returned normally, or the length when none raised |
| CppBuilder.FirstRaised | ApkForge/cpp_builder.py:109-116 | the loop of `build` stops at the first ABI whose `_prepare_build_directory` raised, after every earlier ABI returned |
| CppBuilder.TargetAbis | ApkForge/cpp_builder.py:91-99 | the targets are always truthy: `build_abis` when truthy, else `keep_only` when truthy, else arm64-v8a |
| CppBuilder.BuildPartition | ApkForge/cpp_builder.py:182-189 | the success count is the number of built ABIs, and successes and failures together are all the targets |
| CppBuilder.BuildMembership | ApkForge/cpp_builder.py:185-189 | an ABI is among the failures, or the successes, exactly when some target position with that ABI failed, or succeeded |
| CppBuilder.NoneBuilt | ApkForge/cpp_builder.py:185-193 | the count is zero iff no ABI was built, and then every target is a failure |
| CppBuilder.Prefix | ApkForge/cpp_builder.py:163 | `target_abis[:k]` is the first k targets, or all of them when there are fewer |
| CppBuilder.BuiltForNamesFailedAbi | ApkForge/cpp_builder.py:153-170 | with targets arm64-v8a and x86 where only x86 builds, the summary names arm64-v8a, the failed ABI, while the corrected text names x86 |
| CppBuilder.BuiltForCorrectedExact | ApkForge/cpp_builder.py:153-170 | the corrected text lists exactly the built ABIs, as many as the success count |
| CppBuilder.BuiltForAgrees | ApkForge/cpp_builder.py:153-170 | when all successes precede all failures the summary as written equals the corrected one |
| CppBuilder.PrefixBuilt | ApkForge/cpp_builder.py:153-170 | when all successes precede all failures the built ABIs are the first `success_count` targets |
| CppBuilder.NativeBuilder.constructor | ApkForge/cpp_builder.py:31-44 | the paths, project root, CMakeLists path and its parent directory are stored; nothing is built and the summary and changes are empty |
| CppBuilder.NativeBuilder.UpdateBuildSummary | ApkForge/cpp_builder.py:153-170 | with a positive count, success is set, the summary says "Success for k/n ABIs" and one change naming the first k targets is appended; with zero nothing changes |
| CppBuilder.NativeBuilder.Build | ApkForge/cpp_builder.py:172-203 | a prerequisite error is raised, unmet prerequisites return None; an ABI whose build directory raised ends the build with that exception and the summary untouched; otherwise RuntimeError listing the failures iff no ABI built and there were targets, else the build directory, with the summary updated by the count |
| CppBuilder.NewNativeBuilder | ApkForge/cpp_builder.py:31-44 | a builder is made iff construction does not fail, with the fields of the constructor; a failure is the construction error |
| CppBuilder.AllFailedMessage | ApkForge/cpp_builder.py:193-196 | when nothing built, the message lists every target |
| Compiler.MissingKeys | ApkForge/compiler.py:31 | the missing keys are exactly the required keys not in `paths` |
| Compiler.MissingRequired | ApkForge/compiler.py:30-31 | the missing keys come in the order modded_dir, android_sdk, src_dir |
| Compiler.ConstructionError | ApkForge/compiler.py:29-49 | construction fails iff a required path is missing (ConfigError listing them, checked first) or `baksmali_jar` is not found (KeyError) |
| Compiler.PlatformsDirectory | ApkForge/compiler.py:160-175 | the SDK's own platforms directory wins when it exists; a result exists; a failure carries the SDK error message |
| Compiler.PlatformsSearchOrder | ApkForge/compiler.py:199-218 | the platforms directory is the first existing candidate: the SDK's, then ANDROID_HOME's, then ANDROID_SDK_ROOT's |
| Compiler.EnvironmentOrder | ApkForge/compiler.py:207-218 | without the SDK's own directory, ANDROID_HOME's wins over ANDROID_SDK_ROOT's, and with neither the search fails |
| Compiler.CheckedLines | ApkForge/compiler.py:232-233 | one line per checked path |
| Compiler.EnvSdks | ApkForge/compiler.py:207-213 | at most the two variables, each set and non-empty |
| Compiler.AndroidPlatforms | ApkForge/compiler.py:179 | the platforms are exactly the listed names starting with "android-" |
| Compiler.PlatformVersionOf | ApkForge/compiler.py:183-187 | the version of `android-<n>` is n |
| Compiler.PlatformVersionMalformed | ApkForge/compiler.py:183-187 | a name without a dash has version 0 |
| Compiler.LatestPlatform | ApkForge/compiler.py:177-190 | FileNotFoundError iff no platform is listed; otherwise the first platform of the largest version, as the stable descending sort puts it first |
| Compiler.IsLatestUnique | ApkForge/compiler.py:189-190 | the first platform of the largest version is unique |
| Compiler.ValidateAndroidJar | ApkForge/compiler.py:192-197 | the platform's `android.jar` is returned iff it exists, else FileNotFoundError naming it |
| Compiler.PlatformJarLatest | ApkForge/compiler.py:150-152 | a found `android.jar` is that of the first platform of the largest version; with no platform the search fails with the platform error |
| Compiler.AndroidJar | ApkForge/compiler.py:146-158 | a found `android.jar` exists; a missing platforms directory is the error; otherwise the platform and jar steps decide |
| Compiler.Classpath | ApkForge/compiler.py:304-315 | the classpath starts with `android.jar` |
| Compiler.ClasspathSplit | ApkForge/compiler.py:304-315 | splitting the classpath at a one-character separator that no item contains gives back `android.jar` and the library jars in order |
| Compiler.TempDirs | ApkForge/compiler.py:130-136 | the five temporary entries, in order, under the modded directory |
| Compiler.MakeTempDirs | ApkForge/compiler.py:138-140 | creating the entries never changes files and never removes a directory |
| Compiler.MakeTempDirsStops | ApkForge/compiler.py:138-140 | after the first failing `mkdir` nothing more happens |
| Compiler.MakeTempDirsMade | ApkForge/compiler.py:138-140 | without failure every directory entry exists; the only directories added are directory entries |
| Compiler.Cleaned | ApkForge/compiler.py:373-384 | clean-up only removes, and never alters, files and directories |
| Compiler.CleanedRemoves | ApkForge/compiler.py:373-384 | a file entry not shadowed by a directory is gone; a directory entry that was not a file is gone; nothing is left below a removed directory entry |
| Compiler.CleanedKeeps | ApkForge/compiler.py:373-384 | a path that is no file entry and lies below no directory entry is kept as it was |
| Compiler.CleanupTempDirs | ApkForge/compiler.py:373-384 | the loop leaves the disk as Compiler.Cleaned says |
| Compiler.SourceCompiler.constructor | ApkForge/compiler.py:29-49 | the paths, found files, modded directory and path separator are stored |
| Compiler.SourceCompiler.CreateTempDirectories | ApkForge/compiler.py:126-144 | the disk is that of Compiler.MakeTempDirs; the result is its error or the five entries |
| Compiler.SourceCompiler.CompileAndMerge | ApkForge/compiler.py:53-124 | a creation failure is raised with no clean-up; otherwise the entries are cleaned up on every path and the result is the jar error, None without sources, the compile error, or the five entries |
| Compiler.SourceCompiler.PrepareClasspath | ApkForge/compiler.py:304-315 | with a one-character separator no item contains, the classpath splits back into `android.jar` and the library jars |
| Compiler.NewSourceCompiler | ApkForge/compiler.py:29-49 | a compiler is made iff construction does not fail; a failure is the construction error |
| Host.CmakelistsEntry | ApkForge/main.py:578-581 | reading a non-dictionary level raises AttributeError; without `paths` the entry is None |
| Host.CmakeListsPath | ApkForge/main.py:578-592 | a falsy entry raises the KeyError; a string entry gives the path under the root, or FileNotFoundError when it does not exist; a result exists |
| Host.NativeBuildOutcome | ApkForge/main.py:594-602 | a prerequisite exception, or the first ABI's build-directory exception, is what `build()` raises; the build succeeds iff the prerequisites are ready, no ABI raised and some ABI built |
| Host.TryOutcome | ApkForge/main.py:602-611 | success iff the build succeeded; no success raises the no-libraries RuntimeError; an error is passed on |
| Host.StopOnError | ApkForge/main.py:614-615 | without `pipeline_behavior` the flag is true; a non-dictionary raises AttributeError |
| Host.StopOnErrorDefault | ApkForge/main.py:614-615 | without `stop_on_error` the flag is true, else its truth value |
| Host.Take100 | ApkForge/main.py:619 | at most the first 100 characters, all of a shorter text |
| Host.ApkForge.BuildNativeLibs | ApkForge/main.py:573-619 | a path error is raised with nothing changed; a success appends the change; an uncaught error or stop_on_error raises; otherwise a warning and the truncated failure are recorded |
| Host.ApkForge.RunNativeBuilder | ApkForge/main.py:594-611 | the builder's outcome is Host.TryOutcome of Host.NativeBuildOutcome |
| Host.ApkForge.NativeFailure | ApkForge/main.py:613-619 | re-raises when `stop_on_error` is true or unreadable; else logs a warning and stores "Failed: " and the first 100 characters |
| Host.AndroidJarCandidate | ApkForge/main.py:642-657 | a missing platforms directory raises; otherwise the candidate is the latest platform's `android.jar`, or the platform error |
| Host.HostJarAgreesWithCompiler | ApkForge/main.py:642-660 | when the SDK's platforms directory exists and the candidate exists, the host finds the same `android.jar` as the compiler |
| Host.ApkForge.FindAndroidJar | ApkForge/main.py:639-660 | `android_jar` is set to the candidate before the existence check; the result is the candidate iff it exists |
| Host.ApkForge.PrepareClasspath | ApkForge/main.py:760-775 | without `android_jar` RuntimeError and nothing changes; else the library jars default to empty and the classpath is joined with the separator |
| Host.MissingDirs | ApkForge/main.py:289-291 | the missing names are exactly those whose directory does not exist |
| Host.MissingDecompiledOrder | ApkForge/main.py:286-291 | res is reported before smali |
| Host.ApkForge.VerifyDecompileSuccess | ApkForge/main.py:285-297 | true iff both directories exist, else RuntimeError listing the missing ones |
| Host.VersionCodeDisplay | ApkForge/main.py:493-500 | a value without "0x", or one that does not parse as hexadecimal, is shown as is |
| Host.VersionCodeDisplayHex | ApkForge/main.py:494-496 | a hexadecimal value is shown as its decimal value and its hexadecimal text |
| Host.ApkForge.RecordVersionCodeChange | ApkForge/main.py:492-508 | one change is appended with the old display and the new code in decimal and hexadecimal |
| Host.RemoveChars | ApkForge/main.py:1045 | no forbidden character is left and the text does not grow |
| Host.RemoveCharsAppend | ApkForge/main.py:1045 | removal distributes over concatenation |
| Host.RemoveCharsNoop | ApkForge/main.py:1045 | a text without forbidden characters is kept |
| Host.SignedName | ApkForge/main.py:1044-1045 | the signed name has no forbidden characters and ends with ").apk" |
| Host.SignedNameClean | ApkForge/main.py:1044-1045 | for clean names it is "app (version).apk" |
| Host.SignedNameIdempotent | ApkForge/main.py:1045 | cleaning the signed name again changes nothing |
| Host.ApkForge.LoadKeystoreConfig | ApkForge/main.py:198-214 | a failing `load` or `validate` raises and leaves `keystore_config` unset; otherwise it is set |
| Host.ApkForge.PrepareSigning | ApkForge/main.py:1029-1048 | before `_load_keystore_config` has set `keystore_config`, reading it raises AttributeError (the "Keystore not loaded" RuntimeError cannot be reached, since a loaded config is always true); the input is the argument, else the aligned APK, else aligned.apk; the output is the argument, else the signed name under the root; a missing root is KeyError only when needed |
| Host.ApkForge.StoreFoundFiles | ApkForge/main.py:219 | the found files are stored |

## Left out

- Printing, logging, wall-clock durations and the JSON report file: they carry no logic.
- The threaded console prompt: the operator's answer or a timeout is a parameter.
- Python reflection and `ast.literal_eval`: replaced by an explicit registry and a literal-parser parameter.
- Unicode case mapping: `lower` and `title` act on ASCII letters only.
- Unicode digits: `str.isdigit` and base-10 `int` are read as ASCII only (`IsDigits`, `PyInt`); Python also accepts every other Unicode decimal digit, so a name or value written with such digits (`"٣٠"` is 30 in Python) is rejected or read as 0 by the model. The members whose contracts this touches follow.
- ManifestManager.MinSdkValue: an all-digit `minSdkVersion` means ASCII digits; a value of other Unicode decimal digits gives 21 where manifest_manager.py:55 reads its number.
- SmaliDecompiler.IndicesExactly: a `smali_classes` suffix of other Unicode decimal digits is skipped where `int` at smali_decompiler.py:68 reads it.
- ApkSigner.VersionKeyRejected: a version part of other Unicode decimal digits makes the key `(0, 0, 0)` where `int` at apk_signer.py:63-65 reads it.
- DexConverter.VersionDirs: the digit test of dex_converter.py:79 accepts ASCII digits only, so a build-tools name of other Unicode decimal digits is not collected.
- DexConverter.Values: a version part of other Unicode decimal digits counts as 0 where `int` at dex_converter.py:94 reads its value.
- Compiler.LatestPlatform: a platform `android-<n>` whose `n` uses other Unicode decimal digits has version 0 where `get_version` at compiler.py:185 reads it, so the chosen platform can differ.
- Host.AndroidJarCandidate: the same for the platform version read at main.py:652.
- ProjectConfig.UpdateFromEnvValues: an integer environment variable written with other Unicode decimal digits does not convert, where Python's `int` reads it.
- Windows newline translation: text files are read with POSIX universal newlines.
- `re.sub`'s template parsing: a parameter (`TemplateParser`); only its rule that a template without a backslash stands for itself (`LiteralTemplates`) is assumed in lemmas.
- File encodings and write failures: the text is read and written as is; an exception while writing is not modelled.
- SubFrom: that `re.sub` rewrites every match is its definition; no lemma states on its own that no earlier element text survives.
- `get_old_app_name` and `get_used_key`: plain field reads of `oldAppName` and `usedKey`.
- Element identity: trees are values, so `append` of a source element copies it, and the identity-based de-duplication in `_find_with_ns` has nothing to remove.
- ManifestUpdater.RemoveLauncherFilters: only launcher intent filters that are direct children of an activity are removed; Python's `activity.remove` raises ValueError for a nested one, which is not modelled, and children are processed before their parents, which differs only for an activity nested inside an intent filter.
- ManifestUpdater.MergeComponents: an element in a namespace other than Android's is appended when its local name qualifies, but later lookups by `_find_with_ns` do not see it.
- The `removed`/`copied`/`added` counters inside `update` are only printed; the helper methods return them.
- `_replace_all_package_references`, `_read_xml`, `_write_xml` and the `xmlns:android` insertion: regular-expression rewriting and serialisation of the manifest text; `update` reports whether the rewrite applies (`rewritesPackage`).
- ElementTree parsing: a manifest is given as a parsed tree or as unparsable.
- `\w` and `\s` are ASCII classes; the order in which Python iterates a set of missing names is a parameter (`SetOrder`), assumed to list exactly the set.
- `get_platform_info`, `get_temp_dir`, `normalize_path`, `setup_utf8_environment` and `cleanup_arg_file`: they query or change the process environment and the file system; the system name is a parameter.
- `run_command`'s conversion of each command element with `str`: commands are lists of strings already; a string command is not modelled.
- `Path.resolve` inside `create_arg_file`: a parameter (`resolve`); the argument file's name built from the process id and the clock is a parameter.
- `SmaliDecompiler.Decompile`: the `mkdir` of each target directory, the log lines and the count of written smali files are not modelled; a directory made before a failing run stays on disk in the source, while the model reports only the error.
- `_get_api_level_for_dex`: `str.isdigit` is taken as ASCII digits; Unicode digits that make `int` raise ValueError are not modelled.
- `_count_original_dex_files`, `_check_min_sdk_for_multidex` and `get_dex_info`: the first two only print, the last returns the fields as a dictionary.
- ApkAnalyzer.ApkAnalyzer.HasSpaceInDex: no modelled operation calls `_has_space_in_dex`, so no lemma is stated about it beyond its definition.
- The listing of the decompiled directory, the smali file counts of each DEX directory, the smali files `rglob` finds and the result of the recursive `BuildConfig.smali` search are parameters; their order is the order Python gives.
- `_copy_smali_files`: the `mkdir` of each destination's parent directories is not modelled, and which copies raise is a parameter (`failing`).
- `\d`, `\s` and `int` in the DEX name patterns and the application-tag pattern are taken as ASCII digits and Python's ASCII whitespace.
- Exceptions while reading or writing the manifest other than a missing file are not modelled.
- The resource logger's messages; the `mkdir` of the target's missing parent directories; `copy2`'s copying of timestamps; symbolic links.
- The source resource tree is given as its listing in `iterdir` order; the target's `os.walk` order is a parameter (`targetWalk`).
- The ABI filter's log messages, the file count and size `_remove_abi_directory` only logs, and `print_summary`, which only prints.
- `shutil.rmtree(..., ignore_errors=True)` is taken to remove the whole tree; a removal that fails silently is not modelled.
- `glob("*.so")` is matched case-sensitively, as on POSIX systems.
- The library deployer's log messages and file sizes; the list of existing ABIs `deploy_libraries` gathers is only logged.
- `Path.resolve` in `_is_already_deployed` is taken as equality of the paths: symbolic links and relative paths are not modelled.
- What `glob("*.so")` in the target and `rglob("*.so")` in the build directory list is given as parameters, in Python's order.
- The tool finder's help texts and package-manager lists, and its log messages: they only print.
- `normalize_path` in the tool finder (user expansion and `resolve`) is taken as the identity, and so is `to_native_path`, which `tool_finder.py` imports from `platform_utils.py`, where it is not defined.
- `_parse_ndk_version`'s `ValueError` branch: with digits taken as ASCII digits `int` cannot fail there.
- The listings of the SDK's `cmake`, `ndk` and `ndk/side-by-side` directories are parameters, in `iterdir` order.
- ToolFinder.ToolFinder.SdkCmakeLatest and ToolFinder.ToolFinder.FindNdkLatest: a sort is modelled by the element it puts first, which is all the code uses.
- ToolFinder.ToolFinder.FindCmake and ToolFinder.ToolFinder.FindNinja are stated through ToolFinder.ProbeOrder and the SDK lemmas, not by lemmas of their own.
- `_copy_library_file` is taken to copy the source's content when the source is a regular file and the destination is not a directory; other `copy2` failures are not modelled.
- `ApkSigner.sign` and `ApkSigner.verify` are modelled by the commands they build: they hand them to `run_java_tool`, which `apk_signer.py` imports from `platform_utils.py`, where it is not defined.
- The signer's platform name and `setup_utf8_environment` in its constructor, and its log messages.
- `str.isdigit` in `_collect_build_tools` is taken as ASCII digits.
- The listing of the `build-tools` directory and what `shutil.which` finds are parameters.
- The converter's log messages and `setup_utf8_environment`; the platform name is a parameter.
- `convert_to_dex`'s `glob("*.dex")` listing after the run is a parameter (`dexFiles`), in Python's order.
- The decompiler's `_print_output` and its log lines: they only print what the run wrote.
- `_prepare_output_directory` when the output path is a file: `rmtree` fails and ignores it, so nothing changes, as modelled; a removal that fails halfway is not modelled.
- The regular expressions of `_remove_multidex_from_manifest` are written as a matcher for `\s+` followed by the literal attribute; `\s` is Python's `str.isspace`.
- ApkBuilder.RemoveMultidexOccurrence: it states each pass on its own; the text after the first pass can contain new whitespace-prefixed plain attributes, which the second pass then removes by its own definition.
- The builder's log messages and `setup_utf8_environment`; the outcomes of the first build and of the rebuild are parameters (`first`, `second`).
- Reading a manifest path that is a directory raises IsADirectoryError (an OSError) with its usual text; other read and write errors are not modelled.
- `Path.resolve` in `KeystoreConfig.validate` is a parameter; path normalisation other than `Path("")` being `.` and `root / "."` being the root is not modelled.
- A `keystore.json` that names a directory: `open` raises IsADirectoryError, modelled as OSError with its message.
- KeystoreConfig follows `load` as written; the corrected load of the finding below is stated beside it and not used by the class.
- `_find_project_root` (walking up from the module's own location) and `Path.cwd()`: the project root is a parameter of PathManager.PathManager.
- The constructor's two configuration loads and `config.get("paths", {})`: the `paths` section read by the first load is given to the model as it is.
- The module-level `get_paths`, which only builds a default manager.
- `Path.is_absolute` on Windows is modelled by a drive with a separator or two leading separators; other Windows path forms are not.
- `Path.resolve`, `Path(...)` normalisation and `expanduser` are parameters: a resolve function and a map from user name to home directory.
- The warning printed for a path that looks absolute, and the JAR count printed by `_resolve_libs_path`.
- `SDKDetector.find_sdk` is a parameter (`detectedSdk`); `sdk_detector.py` is not part of this model.
- `build_config.json` decoding in `ProjectConfig.load` and `_load_build_type`: the decoder is a parameter (`decode`), giving a value or a decoding failure.
- `_print_summary` of the project configuration only prints; its `', '.join` on non-string items raises TypeError, which `load` turns into RuntimeError, and only that failure is modelled.
- ProjectConfig.ProjectConfig.UpdateFromEnv: the environment is a parameter; the printed messages are not modelled.
- ProjectConfig.Slash: `Path` joining is POSIX `/`; the Windows forms of `root / p` are not modelled.
- The dictionary order in which `to_dict` lists its keys: the model gives the dictionary, not its order.
- `prepare_build_directory` of the native build configuration and the directory effects of `_prepare_build_directory` of the native builder: the cleared and made build directory is not modelled; the exception `_prepare_build_directory` can raise (FileExistsError when a file sits at `build_<abi>`) is part of the per-ABI input `built`.
- `_build_single_abi` (CMake configure and build, the library search and the deployment) is a parameter `built`: for each target ABI, whether it built, or the exception its build directory raised outside the `try`.
- `_get_target_abis` reads the global configuration through `get_config`; the model takes the configured `build_abis` and `keep_only` values, and the RuntimeError of an uninitialised global is not modelled there.
- CppBuilder.NativeBuilder.Build: the target ABIs are given as strings; a configured ABI list holding non-strings, which makes `', '.join` raise TypeError, is not modelled.
- CppBuilder.NativeBuilder.Build follows `_update_build_summary` as written, naming the first `success_count` targets; the finding below states the corrected text beside it.
- `ToolFinder.find_cmake`, `find_ninja` and `find_ndk` inside `_check_prerequisites` are parameters (`cmake`, `ninja`, `ndk`), each a path, nothing, or the exception the finder raised (such as NotADirectoryError for a file at `<sdk>/cmake`); the tool finder's own rules are modelled in `tool_finder.dfy`, and the two are not connected by a lemma.
- The native builder's log messages and `build_summary` entries other than the native-build text.
- `NativeBuildConfig` regular expressions: IGNORECASE and `\w` are taken as ASCII; the Unicode case and word classes are not modelled.
- `_select_latest_platform` of the source compiler: a second copy of `_select_android_platform`'s version rule that `compile_and_merge` does not call.
- `compile_and_merge`'s copying, compiling, jar building, DEX conversion and baksmali run: the outcome of these steps is a parameter (`compiled`), and their effect on disk is not modelled beyond the temporary entries.
- `mkdir(parents=True)` in `_create_temp_directories` adds only the entry itself to the model's directories, not missing parents.
- `os.environ` in `_find_android_sdk_component` and `_build_sdk_error_message` is given as the two optional variables `home` and `sdkRoot`; `Path(env_path)` normalisation is not modelled.
- The `JavaCompiler`, `KotlinCompiler`, `JarBuilder` and `DexConverter` objects the source compiler constructs: their construction has no modelled failure; `compiler_utils.py` is not part of this model.
- Host.VersionCodeDisplay: `int(old_value, 16)` is read by `ParseHex`, which does not accept the underscores and surrounding whitespace Python's `int` allows.
- Host.ApkForge.BuildNativeLibs: the CMakeLists path is used as given under the project root; `Path` normalisation of `..` or an absolute `cmakelists` entry is not modelled.
- `_sign_apk`'s `ApkSigner` run after the output name is chosen is modelled in `apk_signer.dfy`; Host.ApkForge.PrepareSigning covers the choice of input and output only.
- `_find_android_jar` of the host uses `max`, the compiler a stable descending sort; both pick the first platform of the largest version, which is what Order.FirstMaxIndex gives.

## Findings

| source | as written | input that shows it | evidently intended | confidence | as-written member | corrected member |
|---|---|---|---|---|---|---|
| ApkForge/manifest_updater.py:247-253 | `_get_application_element` combines lookups with `or`, and `update` tests `not main_app`; an ElementTree element with no children is falsy, so an existing application element without children counts as missing and `update` raises ValueError | a manifest whose only child is `<application android:label="App"/>` | an application element is found whenever one exists, children or not | high (not executed) | ManifestUpdater.EmptyApplicationUpdate | ManifestUpdater.UpdateCorrectedFails |
| ApkForge/config.py:35 | `load` stores `Path(config.get("keystore_path") or "")`, which is `.` when the field is absent or empty, and a path object is always true, so `validate` never reports `keystore_path` as missing and resolves it to the project root | a `keystore.json` with alias and both passwords but no `keystore_path`, in a project whose root exists | a missing `keystore_path` is reported by `validate` as a missing field | high (not executed) | Config.MissingPathAccepted | Config.MissingPathReported |
| ApkForge/cpp_builder.py:153-170 | `_update_build_summary` records "Built for " and `target_abis[:success_count]`, the first `success_count` targets, whichever of them built | targets `arm64-v8a` and `x86` where only `x86` builds: the change reads "Built for arm64-v8a" | the change names the ABIs that built | high (not executed) | CppBuilder.BuiltForNamesFailedAbi | CppBuilder.BuiltForCorrectedExact |

# darklab shell: configuration, saved views, streams and spaced work

A Dafny model of the parts of the darklab shell server where state, strings and time
interact: the layered configuration engine, its redacted dump and bounded disclosure, the
Atlas saved views, the event-stream converter, the asset manifest cache, work spaced in
time and bulk review requests. Each part follows the branches, constants and error cases of
the code, and the theorems are about all inputs, all layers, all runs or all interleavings.

`dafny verify dfyconfig.toml` checks the whole project.

## How it is laid out

| files | subject |
|---|---|
| Text, Values | Python's string operations and configuration values |
| Paths, Merge, Overlay, Shape, Layers, Aliasing | dotted paths, the two deep merges, provenance, layering, the objects they update |
| ConfigKeys, KeySpelling, Coercion, Normalize, KeyMeanings, FixedPoints | the keys, the coercers, the normalization pass, what each key makes of a value, its fixed points |
| Schema, AppConfig, ConfigRuns, SectionWrites, Acceptance, ConfigObject, ConfigEffects, OperationEffects, BuiltSources | validation, the runtime object, its runs, what builds and operations leave |
| RedactedDump, Disclosure | what leaves the server |
| SavedViews, SavedViewStore, SavedViewRefinement, SavedViewOverlap, SavedViewMeanings | normalization of views, the routes under interleaving, the map they refine, what overlapping requests lose, what a payload says and what is read back |
| EventStream, EventStandard | server-sent events to NDJSON, and the HTML standard's reading of them |
| ManifestCache, Spacing, BulkIds | the content-keyed cache, intervals and locks, bulk requests |

Code that loops or updates things in place is a method or a class with loop invariants, tied
by its `ensures` to a specification function; the theorems are lemmas about that function.
What the code takes from elsewhere (integer parsing, `repr`, `ip_network`, IDNA, regular
expression compilation, URL checks, the nested schema models, JSON decoding, fresh ids,
clocks) is a parameter, and the theorems hold for every such parameter, with four exceptions:
IDNA leaves an ASCII label alone (`Sound`), `repr` of a leaf is never the redaction placeholder
(`PlainRepr`), generated view ids are well-formed (`GoodIds`), and `str` of a value never raises,
as it would for an integer of more than 4300 digits or a list nested too deeply. `GoodDefaults` and
`GoodSchema` spell out the facts about the built-in defaults that the theorems use: dot-free
keys, the treated keys with their default values, mappings at the nested sections only.
`KeySpelling.DefaultsExist` shows that they hold together, with the code's own table of
environment names.

## What the code does not do

These properties are false of the code; the model keeps the code and gives the exact condition.

- The merge is not associative. `Merge.OverAssociative` gives the condition both ways,
  `Merge.OverNotAssociative` an instance.
- Dotted paths collide for keys with dots and for an empty first key (`Paths.PathJoinCollides`).
- When a layer puts a plain value where a section was, the next mapping for the section is
  stored whole: its leaves keep an older source, and unknown keys inside it are stored.
  `Layers.StaleSourceExactly` and `Shape.FilteredRefinesPlain` give the conditions both ways.
- Writing one key can change another flat key outside the coupled groups: a domain suffix
  such as `a` + line feed + `.` is stored with its line feed, because the label pattern ends
  in `$`, and loses it the next time any key is written. `ConfigRuns.WriteKeepsSuffixesIff`
  is exact, `Coercion.LineFeedSurvivesOnce` an instance.
- The byte limit of a legacy configuration rises to whole MiB on the first write of any key
  (`ConfigRuns.WriteRoundsBytes`).
- Not every value is coerced or dropped: a number text too large for an integer, such as `inf`,
  and a redaction pattern whose compilation raises anything but a pattern error, such as
  `a{4294967295}`, escape with an error, and the write is refused.
  `Acceptance.ForgivingCommittedIff` is exact, `Acceptance.InfinityRefused` and
  `Acceptance.WidePatternRefused` are instances.
- Some accepted operations are lost: writing the byte limit while the MB limit is an override,
  writing an MB limit that cannot be read, and deleting the MB limit before it is an override.
  `ConfigRuns.WriteBytes`, `ConfigRuns.WriteMb` and `OperationEffects.DeleteFullOutput` are exact.
- A created saved view whose id is already taken is reported as created and dropped on
  writing (`SavedViewRefinement.SavedOutcome`).
- The saved-view routes store the whole preferences row that they read before, without a lock,
  and so do the other writers of the row. A preference, or the list, is rolled back exactly when
  its own writers leave something else between another writer's read and store
  (`SavedViewStore.RolledBackIff`); `SavedViewStore.PreferenceUndone` and
  `SavedViewStore.ListUndone` are instances.
- A later store erases an earlier one exactly when its request took its snapshot before it, or
  would have led to the same map anyway (`SavedViewOverlap.ErasedIff`); the latter never happens
  between requests about different views (`SavedViewOverlap.OtherViewKept`).
- The converter forgets the event id between frames, where the HTML standard keeps it.
  `EventStandard.AgreesWithStandard` says exactly for which frames the ids agree,
  `EventStandard.CarriedIdKept` and `EventStandard.CarriedIdDropped` are an instance.
- The check for taken names sees the name before its trailing blanks go, so a taken name
  padded to the cut is accepted (`SavedViewRefinement.PaddedNameSlipsPast`);
  `SavedViewRefinement.NamesKeptIff` is exact.

## Model

| member | source | states |
|---|---|---|
| Text.TrimCutStabilises | app/blueprints/atlas.py:295-296 | trimming and cutting twice is a fixed point, though once is not |
| Text.StripMeans | app/blueprints/atlas.py:295-296 | stripping takes the blanks off both ends and nothing else |
| Text.LowerMeans | app/blueprints/atlas.py:299-301 | capital letters become small ones and nothing else changes |
| Paths.PathRoundTrip | app/config_builder.py:1038-1039 | splitting a dotted path gives the position back, for dot-free keys and a non-empty first key |
| Paths.PathJoinInjective | app/config_builder.py:1038-1039 | two such positions with one dotted path are the same position |
| Paths.PathJoinCollides | app/config_builder.py:1038-1039 | neither condition can be dropped |
| Paths.FlattenMeaning | app/config_builder.py:1051-1058 | a string is a flattened path exactly when some position of the tree has it as its path |
| Paths.FlattenConfigPaths | app/config_builder.py:1051-1058 | the recursive loop computes the flattened paths |
| Merge.MergeDictData | app/config_builder.py:1042-1048 | the recursive loop computes the right-biased deep merge |
| Merge.EmptyIsIdentity | app/config_builder.py:1042-1048 | the empty mapping is a two-sided identity |
| Merge.OverIsOverlay | app/config_builder.py:1042-1048 | an overlay replaces everything exactly when it covers the target |
| Merge.OverAssociative | app/config_builder.py:1042-1048 | the merge is associative exactly when, wherever the middle holds a leaf between two mappings, the right one covers the left one |
| Merge.OverNotAssociative | app/config_builder.py:1042-1048 | an instance where it is not associative |
| Merge.OverAbsorbs | app/config_builder.py:1042-1048 | laying the same overlay on twice changes nothing more |
| Merge.OverRebase | app/config_builder.py:956-959 | a base laid under an overlay that already rests on it changes nothing |
| Overlay.MergeConfigOverlay | app/config_builder.py:1115-1142 | the filtered in-place merge: its data, the provenance it stamps, exactly the ignored paths warned about |
| Shape.KnownPath | app/config_builder.py:1819-1819 | for faithful keys, testing a dotted path against the flattened defaults is testing whether the defaults have that position |
| Shape.OverlayIsFilter | app/config_builder.py:1115-1142 | so the merge that filters by strings is a merge that filters by positions |
| Shape.FatedIff | app/config_builder.py:1129-1142 | a dotted path is stamped or warned about exactly when its position is assigned or ignored |
| Shape.FilteredRefinesPlain | app/config_builder.py:1115-1142 | the filtered merge is the plain merge of the pruned overlay exactly when no unknown position lies below a value stored whole |
| Shape.RespectingIsStoredKnown | app/config_builder.py:1115-1142 | which holds for every shape-respecting overlay |
| Shape.FilterLeaf | app/config_builder.py:1129-1142 | a shape-respecting layer sets a leaf, and is stamped for it, exactly when it says something there |
| Shape.LeafOrigin | app/config_builder.py:1137-1142 | whatever the shapes: a leaf comes from the overlay exactly when it or something above it was assigned |
| Shape.WarnedAreTopmostUnknown | app/config_builder.py:1126-1136 | the positions warned about are exactly the topmost unknown ones |
| Shape.UnknownBelowWarned | app/config_builder.py:191-194 | every unknown position is a topmost unknown one or lies below one |
| Shape.OverlayPathCounts | app/config_builder.py:191-194 | the two counts are those of the flattened paths inside and outside the allowed set |
| Shape.UnknownPathIff | app/config_builder.py:191-194 | on faithful trees a path counts as unknown exactly when its position is unknown |
| Shape.CountedIsWarned | app/config_builder.py:191-194 | every path counted unknown is warned about, or lies below one that is |
| Layers.RecordProvenance | app/config_builder.py:1061-1066 | the recursive recording stamps exactly the flattened paths |
| Layers.MergeLayers | app/config_builder.py:1822-1824 | the loop over layers applies them in order and warns about exactly the ignored paths, each with its layer's source |
| Layers.ApplyEnvironment | app/config_builder.py:1826-1832 | each non-blank environment name acts as one more layer |
| Layers.LayerConfig | app/config_builder.py:1816-1832 | layering as a whole is the defaults, the layers and the environment in that order |
| Layers.LastWriterWins | app/config_builder.py:1115-1147 | for shape-respecting layers, a leaf has the value and the source of the last layer that sets it |
| Layers.DefaultStands | app/config_builder.py:1061-1066 | a leaf nobody sets keeps its default and the default source |
| Layers.LayeredLastWriter | app/config_builder.py:1816-1832 | last writer wins over layers and environment together, for every environment |
| Layers.LayeredDefaultStands | app/config_builder.py:1816-1832 | a leaf that neither layers nor environment set keeps its default and the default source |
| Aliasing.ErasedMerge | app/config_builder.py:1115-1142 | the merge on dictionary objects computes what the merge on values does |
| Aliasing.UpdatesTarget | app/config_builder.py:1115-1142 | the merge updates objects of its target only |
| Aliasing.NotUpdatedKept | app/config_builder.py:1129-1142 | an object of the target that stays in its place without being updated has the entries it had |
| Aliasing.CopyErases | app/config_builder.py:1823-1823 | a deep copy holds the same value |
| Aliasing.OffsetsFresh | app/config_builder.py:1823-1823 | copies placed beyond the given objects share none of them |
| Aliasing.LayersUntouched | app/config_builder.py:1822-1824 | with a copy of each layer, no object that a caller passed in is ever updated, nor part of the result |
| Aliasing.CopiesNeeded | app/config_builder.py:1823-1823 | without the copies a later layer would write into an earlier one |
| Layers.StaleSourceExactly | app/config_builder.py:1129-1142 | without any shape condition: a leaf taken from the layer is not stamped exactly when a mapping above it was replaced |
| Layers.StaleSourceExample | app/config_builder.py:1130-1142 | the stale case occurs for any section that a plain value has replaced |
| KeySpelling.KeyOfName | app/config_builder.py:880-912 | every treated key is told apart by its spelling: resolving the spelling gives the key back |
| KeySpelling.DefaultsExist | app/config_builder.py:1458-1813 | the facts that a build takes for granted about the defaults hold together, with the code's own table of environment names |
| Coercion.NormalizeCidrList | app/config_builder.py:407-429 | the loop keeps the valid networks in order and drops the others |
| Coercion.CidrsFixed | app/config_builder.py:407-438 | a stored network list is stored again as it is |
| Coercion.NormalizeDomainSuffixes | app/config_builder.py:445-489 | the loop keeps the first occurrence of each valid suffix |
| Coercion.SuffixStable | app/config_builder.py:445-489 | a valid suffix with no final line feed is read as itself |
| Coercion.ValidFixedIff | app/config_builder.py:445-489 | a stored suffix list is stored again as it is exactly when none ends in a line feed |
| Coercion.LineFeedSurvivesOnce | app/config_builder.py:445-489 | an input that is stored with its line feed and loses it the next time |
| Coercion.AppNameWords | app/config_builder.py:296-315 | an application name is words joined by single blanks, 1 to 20 characters |
| Coercion.AppNameFixed | app/config_builder.py:296-315 | a stored name is read as itself |
| Coercion.NormalizeRedactionRules | app/config_redaction.py:12-47 | the loop keeps the usable rules in order, unless compiling some pattern raises past it |
| Coercion.RuleFixed | app/config_redaction.py:12-47 | a kept rule is kept again as it is |
| Coercion.RulesFixed | app/config_redaction.py:12-47 | a stored rule list is stored again as it is |
| Coercion.KeptRulesStay | app/config_redaction.py:29-31 | a kept rule does not escape the next time |
| Normalize.CoerceCounts | app/config_builder.py:1326-1336 | the loop over the forgiving integers treats exactly those |
| Normalize.CoerceFlags | app/config_builder.py:1337-1344 | the loop over the forgiving flags treats exactly those |
| Normalize.NormalizeNumbers | app/config_builder.py:1326-1417 | integers and flags coerced, the upper pool bound raised, the export limit capped |
| Normalize.NormalizeSizes | app/config_builder.py:1354-1409 | the MB and byte limits, by the legacy or the MB rule |
| Normalize.NormalizeConfigData | app/config_builder.py:1229-1422 | the pass succeeds exactly when no rejection rule is violated and no value escapes its coercer, else it stops at the first check that fails in the order of the code; the data and provenance it leaves |
| KeyMeanings.FlagMeans | app/config_builder.py:270-293 | four words turn a flag on, four turn it off, any other text leaves its default |
| KeyMeanings.CountMeans | app/config_builder.py:236-258 | a number, written as one or as text, is raised to the minimum; anything else leaves the default |
| KeyMeanings.FloatMeans | app/config_builder.py:249-258 | a float is cut towards zero |
| KeyMeanings.DurationMeans | app/config_builder.py:1297-1307 | a duration is taken as the number it is or spells |
| KeyMeanings.MbMeans | app/config_builder.py:211-233 | a size is a number of megabytes, as it is or as text with the unit `mb` or `m`, at least zero |
| KeyMeanings.SizesMean | app/config_builder.py:1386-1409 | an unreadable preview limit is 1 MB, an unreadable full-output limit 5 MB where no byte limit is given |
| KeyMeanings.BytesMeans | app/config_builder.py:1371-1380 | a legacy byte limit is an integer or its text, at least zero, and zero when it is neither |
| KeyMeanings.TextMeans | app/config_builder.py:1230-1246 | profile and policy are lower-cased and trimmed, settings trimmed, with their defaults |
| KeyMeanings.AppNameMeans | app/config_builder.py:296-315 | a single-spaced name that fits is stored as it is, a longer one keeps its beginning, a blank one is `darklab_shell` |
| KeyMeanings.ItemsMeans | app/config_builder.py:1247-1253 | scopes may be written with blanks between them, subjects with commas, or both as lists |
| KeyMeanings.RawMeans | app/config_builder.py:407-413 | networks and suffixes may be written with commas between them, or as lists |
| KeyMeanings.NetworksAppend | app/config_builder.py:414-429 | each network is kept or dropped on its own, in its place |
| KeyMeanings.NetworkAlone | app/config_builder.py:414-429 | a single network is kept exactly when it is valid |
| KeyMeanings.SuffixIs | app/config_builder.py:474-478 | a suffix is labels of 1 to 63 small letters, digits and inner hyphens, joined by dots |
| KeyMeanings.SuffixSpelled | app/config_builder.py:454-460 | it is read in either case, with blanks and then dots around it |
| KeyMeanings.SuffixesMeans | app/config_builder.py:445-489 | distinct valid suffixes are stored as they are written |
| KeyMeanings.RuleMeans | app/config_redaction.py:17-46 | a rule whose pattern compiles is kept with its pattern, its replacement or the usual one, its trimmed label and its flags; any other item is dropped or escapes |
| KeyMeanings.FlagsKept | app/config_redaction.py:26-28 | of the flags `i` and `m` are kept, in either case and in order |
| KeyMeanings.RulesAppend | app/config_redaction.py:17-46 | each rule is kept or dropped on its own, in its place |
| KeyMeanings.KindMeans | app/config_builder.py:1150-1173 | a plain key takes values of its default's kind only, a float key integers too |
| KeyMeanings.StringListMeans | app/config_builder.py:1150-1173 | a list of strings is taken as it is, a list with anything else refused |
| KeyMeanings.FloatListMeans | app/config_builder.py:1150-1173 | a list of floats takes integers too and makes floats of them |
| KeyMeanings.AcceptedMeans | app/config_builder.py:1229-1313 | the access rules in one formula: accepted exactly when it holds |
| FixedPoints.NormalizedSettled | app/config_builder.py:1229-1422 | whatever comes out is settled: accepted again, each key its own fixed point, bounds and sizes consistent |
| FixedPoints.AloneFixed | app/config_builder.py:1229-1422 | normalizing a key that depends on no other is idempotent |
| FixedPoints.AccessFixed | app/config_builder.py:1229-1313 | the access settings are read from the output as from the input |
| FixedPoints.SizesSettled | app/config_builder.py:1354-1409 | MB is the ceiling of bytes over 2^20, preview bytes are preview MB times 2^20 |
| FixedPoints.FullOutputAgain | app/config_builder.py:1354-1397 | normalizing again keeps MB, and keeps bytes or rounds them up to whole MiB |
| FixedPoints.SuffixesAgain | app/config_builder.py:445-489 | and keeps the suffix list exactly when none ends in a line feed |
| Schema.FinishGood | app/config_builder.py:1425-1455 | normalization and validation only ever yield good models: the schema's keys, settled, every flat value of its type |
| Schema.SettledAgrees | app/config_builder.py:1150-1173 | validation cannot unsettle a model |
| Schema.DefaultsAccepted | app/config_builder.py:1458-1813 | no rule rejects the built-in defaults |
| Schema.DefaultsPass | app/config_builder.py:1458-1813 | nor does a value among them escape |
| AppConfigs.ReachableGood | app/config_builder.py:940-1026 | every run of set, delete, clear and override, accepted or rejected, stays in good models |
| AppConfigs.DurationsHold | app/config_builder.py:1297-1313 | durations within bounds, idle at most absolute |
| AppConfigs.NumbersHold | app/config_builder.py:1345-1417 | the upper pool bound at least 1 and the lower one, the export limit between 1 and 200000 |
| AppConfigs.ItemsDistinct | app/config_builder.py:1247-1260 | scopes and allowed subjects are distinct strings |
| AppConfigs.ListsHold | app/config_builder.py:1254-1293 | scopes contain openid; the allowlist is non-empty exactly under its policy |
| AppConfigs.SomeSignIn | app/blueprints/auth.py:100-105 | provider profiles have all four settings, and some sign-in method is always enabled |
| AppConfigs.SignInByProfile | app/blueprints/auth.py:100-105 | which ways to sign in each profile offers, exactly |
| ConfigRuns.WriteFrame | app/config_builder.py:956-985 | an accepted write leaves every other flat key alone, outside the coupled keys, the byte limit and the suffix list |
| ConfigRuns.WriteStores | app/config_builder.py:956-985 | an accepted write leaves at every treated key its normal form in the written mapping |
| ConfigRuns.WriteSets | app/config_builder.py:979-985 | and at its own flat key the normal form of the value, or the validated value |
| ConfigRuns.WriteBytes | app/config_builder.py:1354-1397 | a write of the byte limit takes effect exactly while the MB limit has its default source, or it is the whole MiB anyway |
| ConfigRuns.WriteMb | app/config_builder.py:1354-1397 | a write of the MB limit sets both limits, or leaves both when it cannot be read |
| ConfigEffects.WrittenAlone | app/config_builder.py:979-985 | a key that depends on no other holds, after an accepted write, what its coercer makes of the value |
| ConfigEffects.FlagWritten | app/config_builder.py:979-985 | an accepted write turns a flag on for four words, off for four, and to its default for any other text |
| ConfigEffects.CountWritten | app/config_builder.py:1326-1417 | an accepted integer is raised to its minimum, the export limit capped at 200000, the upper pool bound raised to the lower one |
| OperationEffects.DeleteRestores | app/config_builder.py:987-990 | deleting a key, or a section, gives it the value that clearing would |
| OperationEffects.DeleteFrame | app/config_builder.py:987-990 | and leaves every other flat key alone, with the exceptions of a write |
| OperationEffects.DeleteStores | app/config_builder.py:956-967 | every treated key then has its normal form in the mapping with the key reset |
| OperationEffects.DeletePool | app/config_builder.py:1345-1352 | what deleting a pool bound leaves of the upper one |
| OperationEffects.DeleteFullOutput | app/config_builder.py:1354-1397 | deleting the MB limit gives 5 MB once it is an override and is lost before; deleting the byte limit makes it whole MiB |
| OperationEffects.DeletePreview | app/config_builder.py:1398-1409 | deleting a preview limit gives 1 MB again, or the bytes that its MB make |
| OperationEffects.OverrideStores | app/config_builder.py:1018-1026 | an override leaves every treated key in its normal form in the mapping with the overrides put in |
| OperationEffects.OverridePlain | app/config_builder.py:1018-1026 | a plain key is validated from the override, or kept where it is not overridden |
| OperationEffects.WriteRecords | app/config_builder.py:979-985 | a write records "runtime mutation" for its key and every path inside its value and nothing else; deleting and clearing record nothing |
| OperationEffects.OverrideRecords | app/config_builder.py:1018-1026 | an override records "test overrides" likewise |
| ConfigRuns.WritePoolMin | app/config_builder.py:1345-1352 | what writing the lower pool bound does to the upper one |
| ConfigRuns.WriteRoundsBytes | app/config_builder.py:1354-1397 | what it does to the byte limit |
| ConfigRuns.WriteKeepsSuffixesIff | app/config_builder.py:956-985 | it keeps the suffix list exactly when none ends in a line feed |
| ConfigRuns.SizeRun | app/config_builder.py:1354-1409 | over a run that names neither full-output key MB stays and bytes stay or rise to whole MiB, by less than one |
| ConfigRuns.SizeMovesOnce | app/config_builder.py:1354-1409 | along such a run bytes never fall, and once they have moved they never move again |
| SectionWrites.MergeFills | app/config_builder.py:1042-1048 | a merge takes the overlay's leaves and fills what it omits from the target |
| SectionWrites.AssignedSection | app/config_builder.py:979-985 | assigning a section gives the partial value over the defaults |
| SectionWrites.OverriddenSection | app/config_builder.py:1018-1026 | overriding it gives the partial value over the current one, over the defaults |
| SectionWrites.WritesAgree | app/config_builder.py:956-1026 | the two agree for a complete value, or a section at its defaults |
| SectionWrites.WritesDiffer | app/config_builder.py:956-1026 | and differ wherever an omitted leaf is not at its default |
| Acceptance.CommittedIff | app/config_builder.py:956-967 | a mapping is committed exactly when no access rule is violated, no value escapes, its keys are the schema's and the untreated fields validate: normalization's own output always validates |
| Acceptance.ClearCommits | app/config_builder.py:992-993 | clearing is never refused |
| Acceptance.ForgivingCommittedIff | app/config_builder.py:1314-1422 | a value written to a forgiving key is refused exactly when it escapes its coercer: a number text too large, or a rule list with a pattern that raises |
| Acceptance.InfinityRefused | app/config_builder.py:249-258 | where the float reader takes `inf`, the upper pool bound refuses it |
| Acceptance.WidePatternRefused | app/config_redaction.py:29-31 | where compiling `a{4294967295}` raises an overflow, the redaction rules refuse it |
| Acceptance.SmallSchemaWorks | app/config_builder.py:1458-1813 | the treated keys with their defaults form a schema, and clearing yields a good model of it |
| ConfigObject.ReachableSane | app/config_builder.py:940-1026 | the reachable-state invariant in one place: key set, durations, pool and export bounds, scopes, allowlist, provider settings, sign-in, sizes |
| ConfigObject.BuildThenRunGood | app/config_builder.py:1816-1834 | from any layers and environment that build, through any run of operations, every model is good |
| ConfigObject.ClearIsBuild | app/config_builder.py:992-993 | clearing commits what a build with no layers and no environment returns, and is rejected exactly when that is |
| ConfigObject.AppConfig.constructor | app/config_builder.py:943-954 | the object holds the given model and provenance |
| ConfigObject.AppConfig.ValidateCandidate | app/config_builder.py:956-967 | merge over defaults, normalize with a copy of the provenance, validate |
| ConfigObject.AppConfig.SetItem | app/config_builder.py:979-985 | the step of the state machine; rejected writes change neither model nor provenance |
| ConfigObject.AppConfig.DelItem | app/config_builder.py:987-990 | likewise; provenance untouched |
| ConfigObject.AppConfig.ClearAll | app/config_builder.py:992-993 | likewise; provenance untouched |
| ConfigObject.AppConfig.WithOverrides | app/config_builder.py:1018-1026 | a new object, the receiver unchanged |
| ConfigObject.BuildConfig | app/config_builder.py:1816-1851 | the build succeeds exactly when layering, normalization and validation do, with that model, provenance and warnings |
| ConfigEffects.BuiltAt | app/config_builder.py:1833-1834 | a build leaves every treated key in the normal form of what layering left |
| ConfigEffects.EnvironmentWins | app/config_builder.py:1826-1832 | where the environment names a key last, its value and source stand, whatever the layers hold |
| ConfigEffects.EnvMeans | app/config_builder.py:1827-1831 | an environment text is taken trimmed, and cut at the commas for the two lists of networks |
| ConfigEffects.FlagBuilt | app/config_builder.py:1826-1834 | a flag set in the environment follows the same words in the built configuration |
| BuiltSources.BuiltSizeSources | app/config_builder.py:1381-1409 | the sources a build records for the size limits: the byte limit's for both where it rules, otherwise the MB limit's own for both; the preview limit's for its bytes; nothing else changes |
| BuiltSources.LegacyBuilt | app/config_builder.py:1381-1384 | when a layer sets the legacy byte limit last and none the MB limit, the built configuration keeps the bytes and marks both limits with that layer's source |
| BuiltSources.LegacyThenRounds | app/config_builder.py:1394-1396 | and the first accepted write of any other key rounds the bytes up to whole MiB |
| RedactedDump.RedactConfigMapping | app/config_builder.py:1093-1103 | the recursive loop computes the redacted tree |
| RedactedDump.HiddenIff | app/config_builder.py:1077-1090 | a leaf is hidden exactly when its path is sensitive |
| RedactedDump.DumpRevealsExactly | app/config_builder.py:1034-1035 | two configurations have equal dumps exactly when they differ at sensitive leaves only |
| RedactedDump.DumpPositions | app/config_builder.py:1093-1103 | the dump has the same positions, and every leaf off the sensitive paths |
| RedactedDump.DumpIdempotent | app/config_builder.py:1093-1103 | redacting a dump changes nothing |
| RedactedDump.SecretsHidden | app/config_builder.py:1077-1083 | the listed secrets and URLs, and paths that speak of keys, passwords or webhooks, are redacted |
| RedactedDump.OthersShown | app/config_builder.py:1084-1090 | a leaf on any other path is shown as it is |
| Disclosure.DiscloseList | app/config_inspection.py:98-110 | the popping loop computes the disclosed list and its flag |
| Disclosure.ListMaximal | app/config_inspection.py:98-110 | the list is the longest prefix of the first 64 cut items whose JSON text fits 4096 characters |
| Disclosure.TruncatedIffDifferent | app/config_inspection.py:79-115 | truncated exactly when the output differs from the value |
| Disclosure.NoUserInfo | app/config_inspection.py:111-113 | no disclosed string holds both a scheme separator and an at sign |
| Disclosure.FailsClosed | app/config_inspection.py:79-97 | nothing leaves without a reviewed entry that asks for it |
| Disclosure.DisclosedIs | app/config_inspection.py:86-115 | what a reviewed entry discloses: how many, whether any, or the value itself, cut |
| Disclosure.FieldValues | app/config_inspection.py:34-41 | the recursive loop has exactly the builder's flattened paths |
| Disclosure.FieldValuesExact | app/config_inspection.py:34-41 | on faithful trees the entry at a path is the value at that position |
| SavedViews.NormalizeList | app/blueprints/atlas.py:309-321 | the loop that stops when full computes the list |
| SavedViews.NormalizePayload | app/blueprints/atlas.py:324-359 | the payload normalization, built from the list loops |
| SavedViews.NormalizeViews | app/blueprints/atlas.py:388-402 | the loop that stops when full computes the views |
| SavedViews.ListSettles | app/blueprints/atlas.py:309-321 | three passes over a list are two |
| SavedViews.ViewIsOnce | app/blueprints/atlas.py:324-359 | what one pass guarantees of every payload, nested filters or not |
| SavedViews.SettleSettles | app/blueprints/atlas.py:324-385 | reading a view back settles it and keeps its id and whether it has a name |
| SavedViews.SettledFixed | app/blueprints/atlas.py:324-385 | a settled view reads back as itself |
| SavedViews.LoadAllOnce | app/blueprints/atlas.py:388-402 | loading anything yields at most 30 named views with distinct well-formed ids |
| SavedViews.LoadAllKeeps | app/blueprints/atlas.py:388-402 | nothing is dropped when ids are distinct, names given and the list not too long |
| SavedViews.StoreOkFixed | app/blueprints/atlas.py:405-412 | a list in order is a fixed point of loading |
| SavedViews.ThreePassesAreTwo | app/blueprints/atlas.py:388-412 | three passes over any stored list are two |
| SavedViewMeanings.ChoicesSaid | app/blueprints/atlas.py:324-341 | the tab, filters and status of a view are those its payload names, nested filters first, or the fallback |
| SavedViewMeanings.TextsSaid | app/blueprints/atlas.py:324-353 | its texts are those of the payload, trimmed and cut to their limits |
| SavedViewMeanings.ListsSaid | app/blueprints/atlas.py:353-358 | its lists are those of the payload |
| SavedViewMeanings.ListKept | app/blueprints/atlas.py:309-321 | a list keeps each text that is not blank, cut to 120 characters, until there are twelve |
| SavedViewMeanings.IdMeans | app/blueprints/atlas.py:299-301 | a well-formed id is read in either case and with blanks around it, any other is none |
| SavedViewStore.Preferences.Prepare | app/blueprints/atlas.py:442-530 | the read half of each route: the refusals in order, or the list to write |
| SavedViewStore.Preferences.Reread | app/services/projects/preferences.py:25-33 | the write half reads the whole row again |
| SavedViewStore.Preferences.Save | app/blueprints/atlas.py:410-412 | and stores that row with the normalized list in place of its own |
| SavedViewStore.Preferences.SaveOther | app/services/projects/preferences.py:45-52 | other writers store the row they read with their own preference changed |
| SavedViewStore.WithoutAppend | app/blueprints/atlas.py:521-521 | the views a delete keeps stay in order |
| SavedViewStore.EveryRunInOrder | app/blueprints/atlas.py:440-537 | over every interleaving from any stored value: the list is the one found or in order (at most 30, distinct well-formed ids, names, a fixed point of loading) |
| SavedViewStore.StoreRestores | app/blueprints/atlas.py:454-463 | a store sets the writer's own part of the row and puts every other part back to what it was at the writer's read |
| SavedViewStore.RolledBackIff | app/services/storage/transactions.py:20-24 | over every interleaving: a part of the row always holds what its own writers last stored exactly when none of them leaves something else between another writer's read and store |
| SavedViewStore.ChangedBySomeWriter | app/services/storage/transactions.py:20-24 | such a change is the store of one of its own writers in between |
| SavedViewStore.PreferenceUndone | app/services/session/storage.py:456-461 | a preference written inside an accepted request's window is undone |
| SavedViewStore.ListUndone | app/services/projects/preferences.py:45-52 | a list stored inside another writer's window is undone |
| SavedViewStore.WrittenByOneRequest | app/blueprints/atlas.py:440-537 | every store leaves the normalized result of one request on the snapshot it took, or the list that another writer had read |
| SavedViewStore.EveryListFromOneRequest | app/blueprints/atlas.py:440-537 | so every list ever stored is the one found, or the normalized result of one single request |
| SavedViewOverlap.EarlierSnapshotErases | app/blueprints/atlas.py:440-537 | a request with its snapshot before another's store leaves the list of the run without that store, whatever happens in between |
| SavedViewOverlap.ServedElsewhere | app/blueprints/atlas.py:440-537 | a request leaves every view but its own as it was |
| SavedViewOverlap.ErasedIff | app/blueprints/atlas.py:440-537 | the later store leaves the list of the run without the earlier one exactly when its snapshot came before it, or its request takes the maps before and after the earlier store to one map |
| SavedViewOverlap.OtherViewKept | app/blueprints/atlas.py:440-537 | a request about another view never does the latter |
| SavedViewRefinement.SavedOutcome | app/blueprints/atlas.py:440-537 | what each accepted request leaves stored, and that it is in order |
| SavedViewMeanings.ReadableView | app/blueprints/atlas.py:440-510 | every later load reads the view of an accepted create or update |
| SavedViewMeanings.ChoicesReadBack | app/blueprints/atlas.py:304-341 | with the tab, filters and status that its payload named |
| SavedViewMeanings.TextsReadBack | app/blueprints/atlas.py:324-353 | and its texts, trimmed, cut and trimmed |
| SavedViewMeanings.StampReadBack | app/blueprints/atlas.py:330-332 | its id and the time of the request |
| SavedViewMeanings.RefusedIff | app/blueprints/atlas.py:442-456 | each refusal of a create, exactly, and the list it would write |
| SavedViewMeanings.UpdateRefusedIff | app/blueprints/atlas.py:475-500 | each refusal of an update, exactly, and the list it would write |
| SavedViewMeanings.DeleteRefusedIff | app/blueprints/atlas.py:516-524 | the refusal of a delete, exactly, and the views it would keep |
| SavedViewRefinement.ServeRefines | app/blueprints/atlas.py:440-537 | each request, accepted or refused, refines its step on an ordered map from ids to views |
| SavedViewRefinement.ServeAnything | app/blueprints/atlas.py:388-537 | on any stored value at all a request is refused, or served as on what the value settles to |
| SavedViewRefinement.SerialRefines | app/blueprints/atlas.py:440-537 | from a list in order, while no list is stored inside another writer's turn, every stored list refines the map after the requests stored so far, whatever else happens in between |
| SavedViewRefinement.SerialFromAnything | app/blueprints/atlas.py:388-537 | the same from any stored value at all: it stays until a request is accepted, then the run refines the map of what it settled to |
| SavedViewRefinement.RefusedByMap | app/blueprints/atlas.py:440-537 | a request refused on a list in order is one that the map would not take either |
| SavedViewRefinement.NamesKeptIff | app/blueprints/atlas.py:450-505 | an accepted request keeps names distinct up to case exactly when the check saw the name as it is stored, or the stored one is free |
| SavedViewRefinement.PaddedNameSlipsPast | app/blueprints/atlas.py:295-296 | every taken name shorter than 60 can be created again by padding it |
| SavedViewRefinement.EveryRunKeepsNames | app/blueprints/atlas.py:440-537 | over every interleaving, overlapping or not: from any stored value whose settled names are distinct, with cut names that end in no blank, the names of the stored list stay distinct |
| EventStream.ConvertPart | app/blueprints/api_v1_streaming.py:60-97 | the loop over lines computes the record of a part |
| EventStream.ConvertStream | app/blueprints/api_v1_streaming.py:55-119 | the generator delivers the records of the chunks, then the error record of a failure, as far as the consumer reads; the source is closed on every exit |
| EventStream.FailureShape | app/blueprints/api_v1_streaming.py:99-119 | a failing source gives the records of its chunks, none of them an error, and one error record |
| EventStream.FailureMeans | app/blueprints/api_v1_streaming.py:111-115 | the error record carries the failure's text, or a standing one |
| EventStream.FlowIsRecords | app/blueprints/api_v1_streaming.py:55-119 | stepwise delivery is a prefix of the whole output |
| EventStream.PartsWire | app/blueprints/api_v1_streaming.py:59-59 | splitting at blank lines undoes framing, but for one empty part |
| EventStream.LinesMean | app/blueprints/api_v1_streaming.py:60-60 | each of the ten line boundaries ends a line, a carriage return with its line feed once |
| EventStream.NoOtherBreak | app/blueprints/api_v1_streaming.py:60-60 | no other character ends a line |
| EventStream.FramesHomomorphism | app/blueprints/api_v1_streaming.py:55-98 | however whole frames are grouped into chunks, the output is that of the frames one after the other |
| EventStream.FrameKinds | app/blueprints/api_v1_streaming.py:60-75 | a heartbeat exactly for comment frames, silence exactly for frames without data |
| EventStream.OneRecordEach | app/blueprints/api_v1_streaming.py:55-98 | one record for each frame that is not silent, in order |
| EventStandard.AgreesWithStandard | app/blueprints/api_v1_streaming.py:64-75 | on plain frames section 9.2.6 of the HTML Living Standard dispatches one event for each frame with data, with the type and data the code reads; the ids agree exactly when the frame names one or none is in force before it |
| EventStandard.StandardId | app/blueprints/api_v1_streaming.py:65-69 | the id in force after some frames is the last one they name |
| EventStandard.ConversionFollowsStandard | app/blueprints/api_v1_streaming.py:55-98 | for plain frames in any chunks, the records but for heartbeats answer the standard's events one for one and in order: a decoded object with the frame's type and id filled in where they are missing, any other decoded value as it is, undecodable data verbatim; with the exact condition on ids |
| EventStandard.RecordMeans | app/blueprints/api_v1_streaming.py:77-98 | that record, for the fields of any frame |
| EventStandard.CarriedIdKept | app/blueprints/api_v1_streaming.py:65-69 | two frames whose second event has the id of the first by the standard |
| EventStandard.CarriedIdDropped | app/blueprints/api_v1_streaming.py:65-94 | and whose second record has none |
| ManifestCache.App.Load | app/app.py:287-307 | the cached load answers or fails as an uncached one and stores only validated manifests |
| ManifestCache.RunHonest | app/app.py:287-307 | over every run only validated manifests are stored |
| ManifestCache.ManifestIs | app/app.py:296-304 | a text is a manifest exactly when it decodes to a mapping with a mapping of bundles |
| ManifestCache.FreshIs | app/app.py:291-304 | a load fails for want of the file, for its encoding, or for what it holds, exactly |
| ManifestCache.StoredHasBundles | app/app.py:301-306 | every stored manifest has a mapping of bundles, over every run |
| ManifestCache.EveryLoadIsFresh | app/app.py:287-307 | after any edits, removals, retargets and loads by any applications, a load is as one that never saw a cache |
| Spacing.Process.MaybeCleanup | app/app.py:492-516 | the claim of an interval, for an attempt only |
| Spacing.AttemptsSpaced | app/app.py:492-516 | over any requests, attempts are 300 seconds apart |
| Spacing.RejectionsNeverDelay | app/app.py:500-502 | rejected authentications change nothing: the attempts are those of the admitted requests |
| Spacing.AttemptedIff | app/app.py:492-516 | a request attempts a cleanup exactly when enabled, admitted and due |
| Spacing.AcquireLock | app/runtime_bootstrap.py:173-212 | ownership, the kind of lock and the shared key in each case |
| Spacing.LockedCleanupsSpaced | app/runtime_bootstrap.py:173-239 | across any workers, two locked cleanups are 60 seconds apart, whatever Redis does to the others |
| Spacing.SkippedIff | app/runtime_bootstrap.py:192-219 | a worker that reaches Redis skips exactly when some worker took the key within the last 60 seconds, even one that was told its command failed |
| BulkIds.NormalizeIds | app/blueprints/atlas.py:249-257 | each named id once, in order of first naming, cut one past the limit |
| BulkIds.NamedIs | app/blueprints/atlas.py:254-256 | a text names what is left of it once trimmed and cut to 512 characters |
| BulkIds.FirstNamedFirst | app/blueprints/atlas.py:249-257 | an id keeps its place: what is named further on comes after it |
| BulkIds.BulkReview | app/blueprints/atlas_mutations.py:93-146 | refused as too many exactly above 100 distinct ids; else one result for each id, and updated plus not found is their number |
| BulkIds.CutDecides | app/blueprints/atlas.py:257-257 | the cut must lie past the limit for the refusal to be exact |

## Left out

- Sharing between dictionary objects inside one layer (a YAML alias): the trees of `Aliasing` say
  which objects are updated, not what a second path to the same object then shows.
- Keys that are not strings (two raw keys with one spelling), case folding and digits beyond ASCII,
  tuples and sets as inputs, infinite and NaN float values (texts that read as such are modelled).
- The texts of error messages, log events and the warnings of normalization.
- The nested models' own validators (ZAP, OAST, CVE risk): one accept-or-reject step that may
  change its section, so the frame theorem is about flat keys.
- The key order of JSON objects, and JSON encoding: records are values; sizes are a parameter.
- `sse_chunks_with_error_logging`, which only appends a fixed frame to a failing stream.
- Writers of the preferences row that send a list of their own or normalize the one they read (the
  general preferences route): other writers keep the list as they read it.
- Threads inside one worker racing on the interval claim: a request's check and claim are one step.
- `_maybe_checkpoint_sqlite_wal`, whose claim is that of the cleanup without the switch and the
  authentication, and the bounded Redis sweeps of `assets_diag.py`: they would add easier members.
- `source_details`, `declared_rules` and the payload around disclosed values: plain lookups.
- The bulk suppression routes, which account for their ids as the bulk review route does.
- Sign-in beyond the two predicates, themes, rendering, metrics and every route that only calls
  a service.

# mikrator in Dafny

This project models the part of mikrator that mikrator decides itself, rather than forwarding to Liquibase. mikrator is a Kotlin facade and builder DSL over the Liquibase database-migration library. The model covers:

- **Config**: named, nullable settings plus `set` entries, turned by `buildScopeValues` into the key/value map that Liquibase's scope receives.
- **Mikrator**: the facade's own decisions.
  - the `history` filter;
  - the change-set lookup, the "not found" failure and the checksum-version choice of `calculateChecksum`;
  - the update / roll back by the delta / update again sequence of `updateTestingRollback`;
  - the filter list of the status iterator.
- **CreateDefaultValueDsl**: the block of `addDefaultValue`, including the boolean-text classifier `booleanValue(String)`.
- **The builder DSLs**: `ChangesDsl`, `PreConditionsDsl`, `ChangeSetDsl`, `ChangelogDsl` and the top-level `ChangeLog`. They are append-only list builders, a precondition-tree builder, and create-or-reuse containers.

## How it is put together

- **`Liquibase`** (`liquibase.dfy`) holds the library types the DSLs fill in.
  - Objects the DSLs update in place are classes: `ChangeSet`, `DatabaseChangeLog`, `PreconditionContainer` and `AddDefaultValueChange`.
  - Values are datatypes: every change kind, the precondition tree, `ColumnConfig`, `RanChangeSet` and `CheckSum`.
- **Builders are classes.** Each builder is a class with the source's mutable list as a `seq` field. Every builder method states its whole new state.
- **A Kotlin block is a script.** A lambda with receiver becomes the sequence of builder calls it makes (`PreCall`, `DefaultValueCall`, `BodyCall`, `ChangelogCall`, `ConfigCall`). A `Run` method executes a script by calling the builder's methods in order.
- **Each script has a specification function.** `Build`, `ApplyAll`, `Steps`, `LogSteps` and `Apply` give the result of a script as a value. The `Run` method is proved to produce exactly that result. The source's promises are then lemmas about the function.
- **`Mikrator` commands are abstract.** An `Engine` maps each command and the list of ran change sets before it to the list after it.

## Model

| member | source | states |
|---|---|---|
| Config.Config.Set | lib/src/main/kotlin/com/batix/mikrator/Config.kt:23-25 | `additional` gets `value` under the definition's key, replacing any earlier value; nothing else changes |
| Config.LastSetWins | lib/src/main/kotlin/com/batix/mikrator/Config.kt:23-25 | after a block, a key holds the value of its last `set`, whatever statements follow |
| Config.Config.Assign | lib/src/main/kotlin/com/batix/mikrator/Config.kt:35-93 | assigning a named setting stores a value of the field's type, or clears the setting for `null`; the type invariant is kept |
| Config.Config.AssignResourceAccessor | lib/src/main/kotlin/com/batix/mikrator/Config.kt:29 | the resource accessor becomes the given one |
| Config.Config.constructor | lib/src/main/kotlin/com/batix/mikrator/Config.kt:20-29 | all settings null, no additional entries, resource accessor `EmptyResourceAccessor` |
| Config.Config.BuildScopeValues | lib/src/main/kotlin/com/batix/mikrator/Config.kt:100-183 | the map built by the conditional puts, then `putAll(additional)`, equals `ScopeValues` |
| Config.ScopeValues | lib/src/main/kotlin/com/batix/mikrator/Config.kt:182 | every `additional` entry is in the result with its own value, so it wins over any named setting |
| Config.ScopeValuesKeys | lib/src/main/kotlin/com/batix/mikrator/Config.kt:100-183 | the keys are exactly: the resource-accessor key, the keys of the non-null settings, both plugin keys when analytics is disabled, and the keys of `additional` |
| Config.NullSettingAbsent | lib/src/main/kotlin/com/batix/mikrator/Config.kt:101-111 | a null setting has no key in the map unless `additional` supplies one |
| Config.SettingBound | lib/src/main/kotlin/com/batix/mikrator/Config.kt:107-110 | a non-null setting's key is bound to exactly its value unless `additional` overrides it |
| Config.ResourceAccessorPresent | lib/src/main/kotlin/com/batix/mikrator/Config.kt:113 | the resource-accessor key is always present, bound to the field's value unless `additional` overrides it |
| Config.AnalyticsOverrides | lib/src/main/kotlin/com/batix/mikrator/Config.kt:155-167 | `analyticsEnabled == false` puts the listener override and the priority-100, all-off configuration override; `true` or null puts neither |
| Config.Conf | lib/src/main/kotlin/com/batix/mikrator/Config.kt:101-111 | a null setting leaves the map as it was; a non-null one adds its key; no key is removed |
| Config.ConfAll | lib/src/main/kotlin/com/batix/mikrator/Config.kt:101-180 | no key is removed, and every non-null setting in the order has its key |
| Config.Config.PutSetting | lib/src/main/kotlin/com/batix/mikrator/Config.kt:107-111 | one `conf` call on the map being built gives what `Conf` describes |
| Config.ConfAllKeys | lib/src/main/kotlin/com/batix/mikrator/Config.kt:101-180 | the keys after a run of `conf` calls are the starting keys plus exactly the keys those calls add |
| Config.ConfAllSetting | lib/src/main/kotlin/com/batix/mikrator/Config.kt:107-110 | a `conf` call run on a non-null setting leaves its key bound to its value |
| Config.ConfAllUntouched | lib/src/main/kotlin/com/batix/mikrator/Config.kt:101-180 | a key no `conf` call writes keeps its presence and value |
| Config.ConfAllPlugins | lib/src/main/kotlin/com/batix/mikrator/Config.kt:155-167 | with analytics disabled, both plugin overrides are present with their fixed values |
| Config.NewConfig | lib/src/main/kotlin/com/batix/mikrator/Config.kt:189 | `Config(block)` returns a fresh configuration whose state is the block run on the initial state (`Apply`) |
| Mikrator.KeepInHistory | lib/src/main/kotlin/com/batix/mikrator/Mikrator.kt:768-774 | a kept entry has a non-empty tag under `onlyTags` and a tag in a non-empty `tagsFilter`; with the defaults every entry is kept |
| Mikrator.HistoryOf | lib/src/main/kotlin/com/batix/mikrator/Mikrator.kt:768-774 | no longer than the ran list; every entry was ran and is kept by the filter |
| Mikrator.HistoryIsSubsequence | lib/src/main/kotlin/com/batix/mikrator/Mikrator.kt:768-774 | the history is a subsequence of the ran change sets, in their original order, and no longer than that list |
| Mikrator.HistoryMembers | lib/src/main/kotlin/com/batix/mikrator/Mikrator.kt:768-774 | an entry is in the history exactly when it was ran and the filter keeps it |
| Mikrator.OnlyTaggedEntries | lib/src/main/kotlin/com/batix/mikrator/Mikrator.kt:770 | with `onlyTags`, every entry has a non-null, non-empty tag |
| Mikrator.OnlyFilteredTags | lib/src/main/kotlin/com/batix/mikrator/Mikrator.kt:771 | with a non-empty `tagsFilter`, every entry's tag is in `tagsFilter` |
| Mikrator.HistoryDefaults | lib/src/main/kotlin/com/batix/mikrator/Mikrator.kt:756-759 | the default arguments return the full ran list unchanged |
| Mikrator.Mikrator.History | lib/src/main/kotlin/com/batix/mikrator/Mikrator.kt:756-777 | `history` on the database is exactly `HistoryOf` its ran list: an order-preserving subsequence holding exactly the kept ran change sets, and the whole ran list for the default arguments |
| Mikrator.UpdateFor | lib/src/main/kotlin/com/batix/mikrator/Mikrator.kt:197-215 | `updateToTag` with the tag exactly when a tag is given, `update` otherwise, with the same arguments |
| Mikrator.Mikrator.Issue | lib/src/main/kotlin/com/batix/mikrator/Mikrator.kt:56-70 | running a command makes the ran list the engine's result for that command, and the report names the command |
| Mikrator.Mikrator.Update | lib/src/main/kotlin/com/batix/mikrator/Mikrator.kt:45 | issues the update command with its arguments; the ran list becomes the engine's result |
| Mikrator.Mikrator.UpdateToTag | lib/src/main/kotlin/com/batix/mikrator/Mikrator.kt:253 | issues the update-to-tag command with its arguments; the ran list becomes the engine's result |
| Mikrator.Mikrator.RollbackCount | lib/src/main/kotlin/com/batix/mikrator/Mikrator.kt:455 | issues the rollback-count command with its arguments; the ran list becomes the engine's result |
| Mikrator.Mikrator.UpdateTestingRollback | lib/src/main/kotlin/com/batix/mikrator/Mikrator.kt:180-248 | both updates use `UpdateFor(tag)`; the rollback count is (ran count after the first update − ran count before); the final ran list is update(rollback(first result)) |
| Mikrator.RollbackRestores | lib/src/main/kotlin/com/batix/mikrator/Mikrator.kt:195-227 | if updates append and rollbacks remove from the end, the rollback by the delta restores the ran list from before the first update |
| Mikrator.FinalMatchesFirst | lib/src/main/kotlin/com/batix/mikrator/Mikrator.kt:195-245 | with such an engine, the final update produces the same ran list as the first; this rests on the abstract `Engine` being a function of the command and the ran list only, whereas Liquibase's update also depends on the change log, the clock and the locks |
| Mikrator.Mikrator.CalculateChecksum | lib/src/main/kotlin/com/batix/mikrator/Mikrator.kt:827-850 | fails with "Couldn't find change set." exactly when no change set has the (path, author, id); otherwise generates the checksum of the first match with `ChecksumVersionFor` its history row |
| Mikrator.ChecksumVersionFor | lib/src/main/kotlin/com/batix/mikrator/Mikrator.kt:843-844 | the stored last-checksum version when there is one and Liquibase knows it; otherwise (no history row, no stored checksum, or a version Liquibase does not know) the latest |
| Liquibase.FindChangeSet | lib/src/main/kotlin/com/batix/mikrator/Mikrator.kt:837 | found exactly when some change set has the path, author and id; the one found is the first such change set in the list |
| Liquibase.FindRanChangeSet | lib/src/main/kotlin/com/batix/mikrator/Mikrator.kt:842 | found exactly when some history row has the change set's path, author and id; the row found is the first such row |
| Mikrator.ChangeLogIterator | lib/src/main/kotlin/com/batix/mikrator/Mikrator.kt:1149-1161 | five filters in the order ShouldRun, Context, Label, Dbms, Ignore; Context and Label hold the given arguments |
| Mikrator.Visited | lib/src/main/kotlin/com/batix/mikrator/Mikrator.kt:1149-1161 | a change set is visited exactly when it is in the change log and every filter accepts it |
| Mikrator.IteratorAccepts | lib/src/main/kotlin/com/batix/mikrator/Mikrator.kt:1149-1161 | the five filters together accept a change set exactly when it should run, matches the given contexts and labels and the database, and is not ignored |
| Mikrator.StatusAsWritten | lib/src/main/kotlin/com/batix/mikrator/Mikrator.kt:783-798 | as written, `status` reports exactly the change sets that should run, fit the database and are not ignored, whatever context filter and labels it is given |
| Mikrator.Status | lib/src/main/kotlin/com/batix/mikrator/Mikrator.kt:783-798 | corrected, `status` reports exactly the change sets that should run, match the given context filter and labels, fit the database and are not ignored |
| Mikrator.StatusAsWrittenIgnoresFilters | lib/src/main/kotlin/com/batix/mikrator/Mikrator.kt:783-798 | as written, `status`'s context filter and labels have no effect on the change sets it reports |
| Mikrator.StatusContextCounterexample | lib/src/main/kotlin/com/batix/mikrator/Mikrator.kt:793-794 | a change set for context "test" is reported for context "prod" as written, and is not reported by the corrected version |
| Mikrator.StatusHonoursFilters | lib/src/main/kotlin/com/batix/mikrator/Mikrator.kt:793-794 | corrected: every reported change set matches the given context and labels, still has to run, fits the dbms and is not ignored |
| CreateDefaultValueDsl.Lower | lib/src/main/kotlin/com/batix/mikrator/dsl/changes/CreateDefaultValueDsl.kt:41 | same length; each character is lowercased |
| CreateDefaultValueDsl.TrimToNull | lib/src/main/kotlin/com/batix/mikrator/dsl/changes/CreateDefaultValueDsl.kt:41 | `null` exactly for `null` or a blank string |
| CreateDefaultValueDsl.ClassifyBooleanText | lib/src/main/kotlin/com/batix/mikrator/dsl/changes/CreateDefaultValueDsl.kt:40-52 | no text exactly for `null` or blank input; true exactly when the lowercased, trimmed text is "true" or "1"; false exactly when it is "false" or "0"; a computed outcome carries the lowercased, trimmed text |
| CreateDefaultValueDsl.CaseInsensitive | lib/src/main/kotlin/com/batix/mikrator/dsl/changes/CreateDefaultValueDsl.kt:41-43 | arguments that agree after lowercasing are read the same way |
| CreateDefaultValueDsl.WhitespaceInsensitive | lib/src/main/kotlin/com/batix/mikrator/dsl/changes/CreateDefaultValueDsl.kt:41-43 | padding with trimmable characters on either side does not change the reading |
| CreateDefaultValueDsl.UpperCaseTrue | lib/src/main/kotlin/com/batix/mikrator/dsl/changes/CreateDefaultValueDsl.kt:44 | example: "TRUE" reads as true (an instance of `CaseInsensitive` and `ClassifyBooleanText`) |
| CreateDefaultValueDsl.MixedCaseFalse | lib/src/main/kotlin/com/batix/mikrator/dsl/changes/CreateDefaultValueDsl.kt:45 | example: "False" reads as false (an instance of `CaseInsensitive` and `ClassifyBooleanText`) |
| CreateDefaultValueDsl.ComputedTextShape | lib/src/main/kotlin/com/batix/mikrator/dsl/changes/CreateDefaultValueDsl.kt:47-50 | the text that falls through is non-empty, trimmed, lowercase, and none of "true", "1", "false", "0" |
| CreateDefaultValueDsl.TrimPadded | lib/src/main/kotlin/com/batix/mikrator/dsl/changes/CreateDefaultValueDsl.kt:41 | trimmable padding around a string does not change its trimmed form |
| CreateDefaultValueDsl.CreateDefaultValueDsl.BooleanValueText | lib/src/main/kotlin/com/batix/mikrator/dsl/changes/CreateDefaultValueDsl.kt:40-52 | "true"/"1" give true and "false"/"0" give false; null or blank input gives null and leaves the computed default unchanged; other text gives null and sets the computed default to that text with a null schema |
| CreateDefaultValueDsl.CreateDefaultValueDsl.StringValue | lib/src/main/kotlin/com/batix/mikrator/dsl/changes/CreateDefaultValueDsl.kt:22-24 | the string default is the argument, unchanged |
| CreateDefaultValueDsl.CreateDefaultValueDsl.NumericValueText | lib/src/main/kotlin/com/batix/mikrator/dsl/changes/CreateDefaultValueDsl.kt:32-34 | the numeric default is the argument text, unchanged |
| CreateDefaultValueDsl.CreateDefaultValueDsl.BooleanValue | lib/src/main/kotlin/com/batix/mikrator/dsl/changes/CreateDefaultValueDsl.kt:36-38 | the boolean default is the argument, unchanged |
| CreateDefaultValueDsl.CreateDefaultValueDsl.ComputedValue | lib/src/main/kotlin/com/batix/mikrator/dsl/changes/CreateDefaultValueDsl.kt:54-56 | the computed default is a database function of the text and schema |
| CreateDefaultValueDsl.CreateDefaultValueDsl.NextSequenceValue | lib/src/main/kotlin/com/batix/mikrator/dsl/changes/CreateDefaultValueDsl.kt:58-60 | the sequence-next default names the sequence and schema |
| CreateDefaultValueDsl.CreateDefaultValueDsl.DateValue | lib/src/main/kotlin/com/batix/mikrator/dsl/changes/CreateDefaultValueDsl.kt:62-64 | the date default is the formatted date, null for null |
| CreateDefaultValueDsl.CreateDefaultValueDsl.DateValueText | lib/src/main/kotlin/com/batix/mikrator/dsl/changes/CreateDefaultValueDsl.kt:66-68 | the date default is the argument text, unchanged |
| CreateDefaultValueDsl.CreateDefaultValueDsl.DateValueInstant | lib/src/main/kotlin/com/batix/mikrator/dsl/changes/CreateDefaultValueDsl.kt:70-76 | null clears the date default; any other instant is formatted as the `Date` of its millisecond |
| CreateDefaultValueDsl.CreateDefaultValueDsl.DateValueKotlinInstant | lib/src/main/kotlin/com/batix/mikrator/dsl/changes/CreateDefaultValueDsl.kt:79-85 | the same, through `toJavaInstant` |
| CreateDefaultValueDsl.EpochMilli | lib/src/main/kotlin/com/batix/mikrator/dsl/changes/CreateDefaultValueDsl.kt:74 | the whole milliseconds of the instant, rounded towards the past |
| CreateDefaultValueDsl.DateFrom | lib/src/main/kotlin/com/batix/mikrator/dsl/changes/CreateDefaultValueDsl.kt:74 | the `Date` holds the instant's epoch milliseconds |
| CreateDefaultValueDsl.FormatDate | lib/src/main/kotlin/com/batix/mikrator/dsl/changes/CreateDefaultValueDsl.kt:63 | null exactly for a null date |
| CreateDefaultValueDsl.CreateDefaultValueDsl.Run | lib/src/main/kotlin/com/batix/mikrator/dsl/changes/CreateDefaultValueDsl.kt:16-86 | running a block leaves the default values that `ApplyAll` gives for the block |
| PreConditionsDsl.LeafOf | lib/src/main/kotlin/com/batix/mikrator/dsl/PreConditionsDsl.kt:42-232 | a leaf exactly for the non-nesting calls |
| PreConditionsDsl.Build | lib/src/main/kotlin/com/batix/mikrator/dsl/PreConditionsDsl.kt:12-232 | one condition per call, in call order, each being what that call appends |
| PreConditionsDsl.BuildKeepsLeaves | lib/src/main/kotlin/com/batix/mikrator/dsl/PreConditionsDsl.kt:15-40 | the built trees' leaves, read left to right, are the script's leaf calls (nested ones included) in text order |
| PreConditionsDsl.BuildCallKeepsLeaves | lib/src/main/kotlin/com/batix/mikrator/dsl/PreConditionsDsl.kt:15-40 | the same for a single call |
| PreConditionsDsl.NestedStaysNested | lib/src/main/kotlin/com/batix/mikrator/dsl/PreConditionsDsl.kt:16-17 | a nesting call contributes one node, over its own block's conditions, never those conditions directly |
| PreConditionsDsl.PreConditionsDsl.constructor | lib/src/main/kotlin/com/batix/mikrator/dsl/PreConditionsDsl.kt:12-13 | a new builder has no conditions |
| PreConditionsDsl.PreConditionsDsl.And | lib/src/main/kotlin/com/batix/mikrator/dsl/PreConditionsDsl.kt:15-22 | appends exactly one And node whose children are the block's conditions, in order |
| PreConditionsDsl.PreConditionsDsl.Or | lib/src/main/kotlin/com/batix/mikrator/dsl/PreConditionsDsl.kt:24-31 | appends exactly one Or node whose children are the block's conditions, in order |
| PreConditionsDsl.PreConditionsDsl.Not | lib/src/main/kotlin/com/batix/mikrator/dsl/PreConditionsDsl.kt:33-40 | appends exactly one Not node whose children are the block's conditions, in order |
| PreConditionsDsl.PreConditionsDsl.ChangeLogPropertyDefined | lib/src/main/kotlin/com/batix/mikrator/dsl/PreConditionsDsl.kt:42-47 | appends exactly one leaf with the property and optional value |
| PreConditionsDsl.PreConditionsDsl.ChangeSetExecuted | lib/src/main/kotlin/com/batix/mikrator/dsl/PreConditionsDsl.kt:49-59 | appends exactly one leaf; `changeLogFile` defaults to "virtual" |
| PreConditionsDsl.PreConditionsDsl.ColumnExists | lib/src/main/kotlin/com/batix/mikrator/dsl/PreConditionsDsl.kt:61-73 | appends exactly one leaf with the given arguments |
| PreConditionsDsl.PreConditionsDsl.Dbms | lib/src/main/kotlin/com/batix/mikrator/dsl/PreConditionsDsl.kt:75-79 | appends exactly one leaf with the dbms type |
| PreConditionsDsl.PreConditionsDsl.ExpectedQuotingStrategy | lib/src/main/kotlin/com/batix/mikrator/dsl/PreConditionsDsl.kt:81-85 | appends exactly one leaf holding the strategy's name |
| PreConditionsDsl.PreConditionsDsl.ForeignKeyConstraintExists | lib/src/main/kotlin/com/batix/mikrator/dsl/PreConditionsDsl.kt:87-99 | appends exactly one leaf with the given arguments |
| PreConditionsDsl.PreConditionsDsl.IndexExists | lib/src/main/kotlin/com/batix/mikrator/dsl/PreConditionsDsl.kt:101-115 | appends exactly one leaf with the given arguments |
| PreConditionsDsl.PreConditionsDsl.PrimaryKeyExists | lib/src/main/kotlin/com/batix/mikrator/dsl/PreConditionsDsl.kt:117-129 | appends exactly one leaf with the given arguments |
| PreConditionsDsl.PreConditionsDsl.RowCount | lib/src/main/kotlin/com/batix/mikrator/dsl/PreConditionsDsl.kt:131-143 | appends exactly one leaf with the given arguments |
| PreConditionsDsl.PreConditionsDsl.RunningAs | lib/src/main/kotlin/com/batix/mikrator/dsl/PreConditionsDsl.kt:145-149 | appends exactly one leaf with the username |
| PreConditionsDsl.PreConditionsDsl.SequenceExists | lib/src/main/kotlin/com/batix/mikrator/dsl/PreConditionsDsl.kt:151-161 | appends exactly one leaf with the given arguments |
| PreConditionsDsl.PreConditionsDsl.SqlCheck | lib/src/main/kotlin/com/batix/mikrator/dsl/PreConditionsDsl.kt:163-171 | appends exactly one leaf with the expected result and the SQL |
| PreConditionsDsl.PreConditionsDsl.TableExists | lib/src/main/kotlin/com/batix/mikrator/dsl/PreConditionsDsl.kt:173-183 | appends exactly one leaf with the given arguments |
| PreConditionsDsl.PreConditionsDsl.TableIsEmpty | lib/src/main/kotlin/com/batix/mikrator/dsl/PreConditionsDsl.kt:185-195 | appends exactly one leaf with the given arguments |
| PreConditionsDsl.PreConditionsDsl.UniqueConstraintExists | lib/src/main/kotlin/com/batix/mikrator/dsl/PreConditionsDsl.kt:197-211 | appends exactly one leaf with the given arguments |
| PreConditionsDsl.PreConditionsDsl.ViewExists | lib/src/main/kotlin/com/batix/mikrator/dsl/PreConditionsDsl.kt:213-223 | appends exactly one leaf with the given arguments |
| PreConditionsDsl.PreConditionsDsl.Custom | lib/src/main/kotlin/com/batix/mikrator/dsl/PreConditionsDsl.kt:225-232 | appends exactly one custom leaf recording the class name and every (key, value) parameter |
| Liquibase.SetParams | lib/src/main/kotlin/com/batix/mikrator/dsl/PreConditionsDsl.kt:228-230 | setting the entries one at a time stores exactly the given parameter map |
| PreConditionsDsl.PreConditionsDsl.Run | lib/src/main/kotlin/com/batix/mikrator/dsl/PreConditionsDsl.kt:12-232 | running a block appends exactly `Build(block)` |
| PreConditionsDsl.PreConditionsDsl.RunCall | lib/src/main/kotlin/com/batix/mikrator/dsl/PreConditionsDsl.kt:15-232 | one call appends exactly `BuildCall` of it |
| PreConditionsDsl.FillContainer | lib/src/main/kotlin/com/batix/mikrator/dsl/ChangeSetDsl.kt:23-35 | the container's five options become the given ones; the block's conditions are appended after the existing ones |
| ChangeSetDsl.ChangeSetDsl.PreConditions | lib/src/main/kotlin/com/batix/mikrator/dsl/ChangeSetDsl.kt:11-36 | an existing container is reused; a missing one is created fresh; all five options are overwritten (defaults HALT, HALT, IGNORE); the new conditions follow the old ones |
| ChangeSetDsl.ChangeSetDsl.Changes | lib/src/main/kotlin/com/batix/mikrator/dsl/ChangeSetDsl.kt:41-46 | the forward list gets the built changes, in build order |
| ChangeSetDsl.ChangeSetDsl.Rollback | lib/src/main/kotlin/com/batix/mikrator/dsl/ChangeSetDsl.kt:51-56 | the rollback list gets the built changes, in build order; the forward list is untouched |
| ChangeSetDsl.ChangeSetDsl.Run | lib/src/main/kotlin/com/batix/mikrator/dsl/ChangeSetDsl.kt:7-57 | running a block gives the body `Steps` describes and never replaces an existing container |
| ChangeSetDsl.StepsChanges | lib/src/main/kotlin/com/batix/mikrator/dsl/ChangeSetDsl.kt:41-56 | after a block, the forward list is extended by exactly the `changes` calls' changes and the rollback list by exactly the `rollback` calls' changes |
| ChangeSetDsl.StepsPreconditions | lib/src/main/kotlin/com/batix/mikrator/dsl/ChangeSetDsl.kt:19-35 | a container exists afterwards exactly when one existed or the block calls `preConditions`; its conditions are the old ones followed by every call's, in call order |
| ChangeSetDsl.LastOptionsWin | lib/src/main/kotlin/com/batix/mikrator/dsl/ChangeSetDsl.kt:23-29 | the container's options are those of the last `preConditions` call |
| ChangelogDsl.Values | lib/src/main/kotlin/com/batix/mikrator/dsl/ChangelogDsl.kt:80 | the contents of the change log's change sets, one per change set and in order: each one's attributes (as `changeSet` arguments) and its body |
| ChangelogDsl.VisitorsAfter | lib/src/main/kotlin/com/batix/mikrator/dsl/ChangelogDsl.kt:137-149 | one visitor loaded with `dbms` and `remove` is added exactly when the factory makes an add-column visitor; otherwise the visitors are unchanged |
| ChangelogDsl.UnknownVisitorsIgnored | lib/src/main/kotlin/com/batix/mikrator/dsl/ChangelogDsl.kt:137-149 | a block whose `removeChangeSetProperty` calls all get no add-column visitor leaves the visitors as they were |
| ChangelogDsl.ChangeSetsInCallOrder | lib/src/main/kotlin/com/batix/mikrator/dsl/ChangelogDsl.kt:21-81 | the change log ends with one change set per `changeSet` call, in call order, after the ones it had (the order Liquibase keeps when no call gives a `runOrder`); each holds its call's arguments and the body its own block builds |
| ChangelogDsl.NewChangeSet | lib/src/main/kotlin/com/batix/mikrator/dsl/ChangelogDsl.kt:44-75 | a fresh change set carrying every argument; labels are set only when given; every valid checksum is added, in order; the body is empty |
| ChangelogDsl.SetAttributes | lib/src/main/kotlin/com/batix/mikrator/dsl/ChangelogDsl.kt:59-71 | sets created, failOnError, ignore, logical path, validation option, runOrder and comments to the arguments; labels only when given, otherwise they stay as they were |
| ChangelogDsl.AddValidCheckSums | lib/src/main/kotlin/com/batix/mikrator/dsl/ChangelogDsl.kt:73-75 | the valid checksums become the old ones followed by every given checksum, in order |
| ChangelogDsl.BuildChangeSet | lib/src/main/kotlin/com/batix/mikrator/dsl/ChangelogDsl.kt:44-78 | a fresh change set built from the arguments, whose body is what its block builds from the empty body |
| ChangelogDsl.ChangelogDsl.AddChangeSet | lib/src/main/kotlin/com/batix/mikrator/dsl/ChangelogDsl.kt:44-80 | the change log gets exactly one more change set, at the end; it is fresh, holds the arguments and its block's body, and the change log's value takes one `LogStep` |
| ChangelogDsl.ChangelogDsl.Append | lib/src/main/kotlin/com/batix/mikrator/dsl/ChangelogDsl.kt:80 | the change set is added after the existing ones, whose contents stay as they were |
| ChangelogDsl.ChangelogDsl.ChangeSet | lib/src/main/kotlin/com/batix/mikrator/dsl/ChangelogDsl.kt:21-81 | exactly one change set is appended after the block has run; it is fresh, built from the arguments (source defaults), and holds the body its block gives; the position is Liquibase's for a change set without `runOrder` |
| ChangelogDsl.ChangelogDsl.PreConditions | lib/src/main/kotlin/com/batix/mikrator/dsl/ChangelogDsl.kt:86-111 | the change log's container is created or reused, its options overwritten, and the conditions appended |
| ChangelogDsl.ChangelogDsl.Property | lib/src/main/kotlin/com/batix/mikrator/dsl/ChangelogDsl.kt:116-125 | appends one property with the arguments; `global` defaults to true |
| ChangelogDsl.ChangelogDsl.RemoveChangeSetProperty | lib/src/main/kotlin/com/batix/mikrator/dsl/ChangelogDsl.kt:130-150 | the visitors become `VisitorsAfter` of the factory's result |
| ChangelogDsl.ChangelogDsl.Run | lib/src/main/kotlin/com/batix/mikrator/dsl/ChangelogDsl.kt:15-151 | running a block gives the change log `LogSteps` describes, including the arguments and body of every change set it adds, and never replaces an existing container |
| ChangelogDsl.ChangelogDsl.RunCall | lib/src/main/kotlin/com/batix/mikrator/dsl/ChangelogDsl.kt:21-150 | one call has the effect `LogStep` describes; a `changeSet` call adds a change set holding its arguments and its block's body |
| ChangelogDsl.ChangeLog | lib/src/main/kotlin/com/batix/mikrator/dsl/ChangelogDsl.kt:156-177 | a fresh change log: the logical path is the argument (default "virtual"); the physical path and quoting strategy are the arguments; the context filter is set only when given; the change log holds what `LogSteps` gives for the block, down to each change set's arguments and body |
| ChangesDsl.DropColumnOf | lib/src/main/kotlin/com/batix/mikrator/dsl/ChangesDsl.kt:143-154 | the single `columnName` is set exactly when one name is given, and to that name; the columns match the names one-to-one and in order |
| ChangesDsl.ChangesDsl.constructor | lib/src/main/kotlin/com/batix/mikrator/dsl/ChangesDsl.kt:11-12 | a new builder has no changes |
| ChangesDsl.ChangesDsl.CreateTable | lib/src/main/kotlin/com/batix/mikrator/dsl/ChangesDsl.kt:23-50 | appends exactly one change at the end of `changes`, earlier entries untouched; the created table's columns are the block-built columns in order |
| ChangesDsl.ChangesDsl.DropTable | lib/src/main/kotlin/com/batix/mikrator/dsl/ChangesDsl.kt:55-69 | appends exactly one change at the end of `changes`, earlier entries untouched; the change holds the call's arguments, defaults included |
| ChangesDsl.ChangesDsl.SetTableRemarks | lib/src/main/kotlin/com/batix/mikrator/dsl/ChangesDsl.kt:74-88 | appends exactly one change at the end of `changes`, earlier entries untouched; the change holds the call's arguments, defaults included |
| ChangesDsl.ChangesDsl.RenameTable | lib/src/main/kotlin/com/batix/mikrator/dsl/ChangesDsl.kt:93-107 | appends exactly one change at the end of `changes`, earlier entries untouched; the change holds the call's arguments, defaults included |
| ChangesDsl.ChangesDsl.AddColumn | lib/src/main/kotlin/com/batix/mikrator/dsl/ChangesDsl.kt:114-131 | appends exactly one change at the end of `changes`, earlier entries untouched; the change's columns are the block-built columns in order |
| ChangesDsl.ChangesDsl.DropColumn | lib/src/main/kotlin/com/batix/mikrator/dsl/ChangesDsl.kt:136-157 | appends exactly one change at the end of `changes`, earlier entries untouched; the change is `DropColumnOf` of the names: single `columnName` only for one name, one column per name in order |
| ChangesDsl.ChangesDsl.RenameColumn | lib/src/main/kotlin/com/batix/mikrator/dsl/ChangesDsl.kt:162-182 | appends exactly one change at the end of `changes`, earlier entries untouched; the change holds the call's arguments, defaults included |
| ChangesDsl.ChangesDsl.ModifyDataType | lib/src/main/kotlin/com/batix/mikrator/dsl/ChangesDsl.kt:187-203 | appends exactly one change at the end of `changes`, earlier entries untouched; the change holds the call's arguments, defaults included |
| ChangesDsl.ChangesDsl.SetColumnRemarks | lib/src/main/kotlin/com/batix/mikrator/dsl/ChangesDsl.kt:208-228 | appends exactly one change at the end of `changes`, earlier entries untouched; the change holds the call's arguments, defaults included |
| ChangesDsl.ChangesDsl.AddAutoIncrement | lib/src/main/kotlin/com/batix/mikrator/dsl/ChangesDsl.kt:233-257 | appends exactly one change at the end of `changes`, earlier entries untouched; the change holds the call's arguments, defaults included |
| ChangesDsl.ChangesDsl.CreateIndex | lib/src/main/kotlin/com/batix/mikrator/dsl/ChangesDsl.kt:264-293 | appends exactly one change at the end of `changes`, earlier entries untouched; the index columns are the block-built columns in order |
| ChangesDsl.ChangesDsl.DropIndex | lib/src/main/kotlin/com/batix/mikrator/dsl/ChangesDsl.kt:298-312 | appends exactly one change at the end of `changes`, earlier entries untouched; the change holds the call's arguments, defaults included |
| ChangesDsl.ChangesDsl.CreateView | lib/src/main/kotlin/com/batix/mikrator/dsl/ChangesDsl.kt:319-343 | appends exactly one change at the end of `changes`, earlier entries untouched; the change holds the call's arguments, defaults included |
| ChangesDsl.ChangesDsl.DropView | lib/src/main/kotlin/com/batix/mikrator/dsl/ChangesDsl.kt:348-362 | appends exactly one change at the end of `changes`, earlier entries untouched; the change holds the call's arguments, defaults included |
| ChangesDsl.ChangesDsl.RenameView | lib/src/main/kotlin/com/batix/mikrator/dsl/ChangesDsl.kt:367-381 | appends exactly one change at the end of `changes`, earlier entries untouched; the change holds the call's arguments, defaults included |
| ChangesDsl.ChangesDsl.CreateProcedure | lib/src/main/kotlin/com/batix/mikrator/dsl/ChangesDsl.kt:385-407 | appends exactly one change at the end of `changes`, earlier entries untouched; the change holds the call's arguments, defaults included |
| ChangesDsl.ChangesDsl.DropProcedure | lib/src/main/kotlin/com/batix/mikrator/dsl/ChangesDsl.kt:412-424 | appends exactly one change at the end of `changes`, earlier entries untouched; the change holds the call's arguments, defaults included |
| ChangesDsl.ChangesDsl.CreateSequence | lib/src/main/kotlin/com/batix/mikrator/dsl/ChangesDsl.kt:431-459 | appends exactly one change at the end of `changes`, earlier entries untouched; the change holds the call's arguments, defaults included |
| ChangesDsl.ChangesDsl.DropSequence | lib/src/main/kotlin/com/batix/mikrator/dsl/ChangesDsl.kt:464-476 | appends exactly one change at the end of `changes`, earlier entries untouched; the change holds the call's arguments, defaults included |
| ChangesDsl.ChangesDsl.RenameSequence | lib/src/main/kotlin/com/batix/mikrator/dsl/ChangesDsl.kt:481-495 | appends exactly one change at the end of `changes`, earlier entries untouched; the change holds the call's arguments, defaults included |
| ChangesDsl.ChangesDsl.AlterSequence | lib/src/main/kotlin/com/batix/mikrator/dsl/ChangesDsl.kt:500-526 | appends exactly one change at the end of `changes`, earlier entries untouched; the change holds the call's arguments, defaults included |
| ChangesDsl.ChangesDsl.AddDefaultValue | lib/src/main/kotlin/com/batix/mikrator/dsl/ChangesDsl.kt:533-555 | appends exactly one change at the end of `changes`, earlier entries untouched; the appended change carries the given identifiers and the default values that running its `CreateDefaultValueDsl` block on a change with no defaults yields (`ApplyAll(NoDefaults, block)`) |
| ChangesDsl.ChangesDsl.DropDefaultValue | lib/src/main/kotlin/com/batix/mikrator/dsl/ChangesDsl.kt:560-576 | appends exactly one change at the end of `changes`, earlier entries untouched; the change holds the call's arguments, defaults included |
| ChangesDsl.ChangesDsl.AddForeignKeyConstraint | lib/src/main/kotlin/com/batix/mikrator/dsl/ChangesDsl.kt:581-615 | appends exactly one change at the end of `changes`, earlier entries untouched; the change holds the call's arguments, defaults included |
| ChangesDsl.ChangesDsl.DropForeignKeyConstraint | lib/src/main/kotlin/com/batix/mikrator/dsl/ChangesDsl.kt:620-634 | appends exactly one change at the end of `changes`, earlier entries untouched; the change holds the call's arguments, defaults included |
| ChangesDsl.ChangesDsl.DropAllForeignKeyConstraints | lib/src/main/kotlin/com/batix/mikrator/dsl/ChangesDsl.kt:639-651 | appends exactly one change at the end of `changes`, earlier entries untouched; the change holds the call's arguments, defaults included |
| ChangesDsl.ChangesDsl.AddNotNullConstraint | lib/src/main/kotlin/com/batix/mikrator/dsl/ChangesDsl.kt:656-678 | appends exactly one change at the end of `changes`, earlier entries untouched; the change holds the call's arguments, defaults included |
| ChangesDsl.ChangesDsl.DropNotNullConstraint | lib/src/main/kotlin/com/batix/mikrator/dsl/ChangesDsl.kt:683-701 | appends exactly one change at the end of `changes`, earlier entries untouched; the change holds the call's arguments, defaults included |
| ChangesDsl.ChangesDsl.AddPrimaryKey | lib/src/main/kotlin/com/batix/mikrator/dsl/ChangesDsl.kt:706-734 | appends exactly one change at the end of `changes`, earlier entries untouched; the change holds the call's arguments, defaults included |
| ChangesDsl.ChangesDsl.DropPrimaryKey | lib/src/main/kotlin/com/batix/mikrator/dsl/ChangesDsl.kt:739-755 | appends exactly one change at the end of `changes`, earlier entries untouched; the change holds the call's arguments, defaults included |
| ChangesDsl.ChangesDsl.AddUniqueConstraint | lib/src/main/kotlin/com/batix/mikrator/dsl/ChangesDsl.kt:760-794 | appends exactly one change at the end of `changes`, earlier entries untouched; the change holds the call's arguments, defaults included |
| ChangesDsl.ChangesDsl.DropUniqueConstraint | lib/src/main/kotlin/com/batix/mikrator/dsl/ChangesDsl.kt:799-815 | appends exactly one change at the end of `changes`, earlier entries untouched; the change holds the call's arguments, defaults included |
| ChangesDsl.ChangesDsl.AddLookupTable | lib/src/main/kotlin/com/batix/mikrator/dsl/ChangesDsl.kt:822-848 | appends exactly one change at the end of `changes`, earlier entries untouched; the change holds the call's arguments, defaults included |
| ChangesDsl.ChangesDsl.Delete | lib/src/main/kotlin/com/batix/mikrator/dsl/ChangesDsl.kt:853-872 | appends exactly one change at the end of `changes`, earlier entries untouched; where-params are the `whereParams` block's columns; the default empty block gives none |
| ChangesDsl.ChangesDsl.Insert | lib/src/main/kotlin/com/batix/mikrator/dsl/ChangesDsl.kt:877-896 | appends exactly one change at the end of `changes`, earlier entries untouched; the inserted columns are the block-built columns in order |
| ChangesDsl.ChangesDsl.MergeColumns | lib/src/main/kotlin/com/batix/mikrator/dsl/ChangesDsl.kt:905-927 | appends exactly one change at the end of `changes`, earlier entries untouched; the change holds the call's arguments, defaults included |
| ChangesDsl.ChangesDsl.Update | lib/src/main/kotlin/com/batix/mikrator/dsl/ChangesDsl.kt:932-956 | appends exactly one change at the end of `changes`, earlier entries untouched; the `whereParams` block's columns go only into where-params and the main block's only into columns |
| ChangesDsl.ChangesDsl.CustomChange | lib/src/main/kotlin/com/batix/mikrator/dsl/ChangesDsl.kt:972-985 | appends exactly one change at the end of `changes`, earlier entries untouched; the wrapper records the class name and every (key, value) parameter, no more |
| ChangesDsl.ChangesDsl.ExecuteCommand | lib/src/main/kotlin/com/batix/mikrator/dsl/ChangesDsl.kt:990-1007 | appends exactly one change at the end of `changes`, earlier entries untouched; the arguments are added one by one, in order |
| ChangesDsl.ChangesDsl.Output | lib/src/main/kotlin/com/batix/mikrator/dsl/ChangesDsl.kt:1012-1022 | appends exactly one change at the end of `changes`, earlier entries untouched; the change holds the call's arguments, defaults included |
| ChangesDsl.ChangesDsl.Sql | lib/src/main/kotlin/com/batix/mikrator/dsl/ChangesDsl.kt:1027-1043 | appends exactly one change at the end of `changes`, earlier entries untouched; the change holds the call's arguments, defaults included |
| ChangesDsl.ChangesDsl.Stop | lib/src/main/kotlin/com/batix/mikrator/dsl/ChangesDsl.kt:1050-1056 | appends exactly one change at the end of `changes`, earlier entries untouched; the change holds the call's arguments, defaults included |
| ChangesDsl.ChangesDsl.TagDatabase | lib/src/main/kotlin/com/batix/mikrator/dsl/ChangesDsl.kt:1058-1068 | appends exactly one change at the end of `changes`, earlier entries untouched; the change holds the call's arguments, defaults included |

## Left out

- Liquibase command plumbing: every `CommandScope` or `Scope.child` call of `Mikrator` only forwards arguments to the library. `update`, `updateToTag` and `rollbackCount` are abstract commands of an `Engine`; the facade's other commands are not part of this model.
- Database I/O, JDBC, the history service's cache and its `reset`: the ran list is read straight from the modelled database.
- `Mikrator.Mikrator.Update`, `UpdateToTag`, `RollbackCount`: keep only the contexts and label filter. Arguments that are only forwarded (listeners, change-log parameters, summary options) are dropped.
- The change-log validation in `status` and the `StatusVisitor` report: a filter's decision is an abstract `FilterSemantics`. Liquibase's context and label expression matching is library code.
- `Liquibase.FindChangeSet` and `Liquibase.FindRanChangeSet`: exact matching on path, author and id. Liquibase's path normalisation in `getChangeSet` and `getRanChangeSet` is library code.
- `generateCheckSum` and `ChecksumVersion`: a parameter and a value (the known versions and the latest one).
- `Config` settings keys: Liquibase's configuration keys are a parameter `keyOf`. The lemmas assume they are pairwise distinct and differ from the three keys `buildScopeValues` writes itself.
- `Config.Config.BuildScopeValues`: the source makes about fifty straight-line `conf` calls. The model makes the same calls as a loop over the settings, in the same order. The named settings are one map, where "absent" means a field holding null.
- `numericValue(Number)`: formatting depends on `NumberFormat` and a locale.
- `ISODateFormat`: the formatter is a parameter of the date methods.
- `CreateDefaultValueDsl.Lower`: lowercases only the ASCII letters A-Z, because Kotlin's full Unicode case mapping is library code.
- `CreateDefaultValueDsl.CreateDefaultValueDsl.DateValueInstant`: requires the instant's milliseconds to fit in a `long`. For other instants `Date.from` throws, and that failure is not modelled.
- `CreateDefaultValueDsl.CreateDefaultValueDsl.DateValueKotlinInstant`: has the same requirement, for the same reason.
- `CreateDefaultValueDsl.CreateDefaultValueDsl.Run`: has the same requirement on every instant in the block.
- `ChangesDsl.ChangesDsl.AddDefaultValue`: has the same requirement through its block.
- The column DSLs (`CreateTableDsl`, `AddColumnDsl`, `CreateIndexDsl`, `InsertDsl`, `ColumnDsl`, `ColumnValueDsl`, `ColumnDefaultValueDsl`) only copy fields into a fresh `ColumnConfig` and append it. A block given to them is represented by the list of columns it built. UpdateWhereDsl is not part of this model.
- The `ChangesDsl` block of `changes` and `rollback` is represented by the list of changes it built. Each `ChangesDsl` builder is proved to append exactly one change.
- `Number.toLong()` conversions in `addAutoIncrement`, `createSequence` and `alterSequence`: numbers are `Option<int>`, so the truncation of fractional numbers is not modelled.
- The reified `customChange<T>()`: it only takes the class name from `T` by reflection and calls `customChange(className, params)`, which is modelled.
- `PreConditionsDsl.PreConditionsDsl.Custom`: takes the precondition class by its qualified name, an `Option<string>` because `qualifiedName` can be null. Reflection is not modelled.
- Liquibase's `addChange` and `addRollbackChange` also link each change back to its change set. That back-link is not modelled.
- `addChangeSet` is modelled as an append. Liquibase's own `addChangeSet` also places a change set by its `runOrder` ("first" ahead of the others, "last" at the end) and rejects any other value. That placement and that rejection are library code and are not modelled.
- `ChangelogDsl.ChangelogDsl.Run`, `RunCall`, `PreConditions`, `AddChangeSet` and `ChangeSet` require that the change log's own precondition container is not also a change set's container (`Separate`). The builder can only be made by `ChangeLog`, on a fresh change log, where this always holds. A change log whose containers are shared is not modelled.
- `ChangelogDsl.ChangelogDsl.ChangeSet`: its "appended at the end" describes Liquibase's placement only for a change set without `runOrder`. With a `runOrder`, the library may place the change set elsewhere or reject it.
- `ChangelogDsl.ChangeSetsInCallOrder`: the call order it states holds in the real change log only when no `changeSet` call gives a `runOrder`.
- `addValidCheckSum` is an append of the text; its parsing into a `CheckSum` is library code. Labels and context expressions likewise stay as their text.
- `ChangeLogParameters.set` is an append of one property record. How properties are then resolved is library code.
- `ChangeVisitorFactory.create` is the parameter `factory`. Loading a visitor from a parsed node is reduced to storing `dbms` and `remove`.
- The report objects of the commands are abstract: `Report` records only which command produced it.

## Findings

| source | as written | input that shows it | evidently intended | confidence | as-written member | corrected member |
|---|---|---|---|---|---|---|
| lib/src/main/kotlin/com/batix/mikrator/Mikrator.kt:793-794 | `status` puts `contextFilter` and `labels` into the `RuntimeEnvironment`, but it builds the iterator with `changeLogIterator(changeLog)`. The context and label filters therefore get null and accept every change set. | A change set with context "test", and `status(changeLog, contextFilter = "prod")` | pass the contexts and labels to `changeLogIterator`, so that only the matching change sets are reported, as the parameters promise | medium, not executed | Mikrator.StatusContextCounterexample | Mikrator.StatusHonoursFilters |

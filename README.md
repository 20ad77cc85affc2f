# nifi-script-tester: a Dafny model of ScriptRunner

nifi-script-tester runs a NiFi ExecuteScript script outside NiFi. `ScriptRunner.main`:

1. parses the command line and resolves the shorthand output flags;
2. checks that the script exists and picks the script engine from the script's file extension;
3. configures a NiFi `TestRunner`;
4. loads base attributes from an optional properties file;
5. queues flow files, either from standard input or one per regular file under an input directory;
6. runs the processor once, or once per queued file;
7. prints a report for the success relationship and/or the failure relationship.

A configuration error stops the program with an exit code, and the checks run in a fixed order:

- 1 for a usage error;
- 2 for a missing script;
- 5 for an attribute file that is missing or cannot be read (both cases share this code);
- 3 for a missing input directory;
- 4 for an input path that is not a directory.

The model is in eight modules, one per file:

- `Wrappers` (wrappers.dfy): the `Option` type.
- `Sequences` (sequences.dfy): facts about concatenation and slicing that the other proofs share.

- `ScriptEngines` (engine.dfy): the extension and the engine it selects.
  - The extension is the text after the last `.`, lower-cased.
  - `js`, `py`, `rb` and `lua` select their engines; everything else selects Groovy.
- `CommandOptions` (options.dfy): the option record and the flag resolution.
  - The record is written both as a value (`Flags`, `ParsedOptions`) and as the `Options` object that `parseCommandLine` rewrites in place.
  - Resolution applies `-all`, then `-all-rels`, then `-no-success`.
- `FlowFiles` (runner.dfy): a stand-in for the NiFi `TestRunner`.
  - A FIFO queue of flow files, the lists of flow files per relationship, and the processor properties.
  - A pass of the processor is an uninterpreted `Script`: a function from the head of the queue (or nothing) to a sequence of transfers.
- `Ingestion` (ingestion.dfy): what each input mode queues.
  - Standard input queues at most one flow file.
  - The directory walk queues one flow file per regular file.
  - A single shared attribute map receives `filename`, so `filename` overrides a base attribute of that name.
  - The walk stops at the first I/O error.
- `Report` (report.dfy): the text of `outputFlowFilesForRelationship`.
  - It is written as a specification function on the list of flow files.
  - Two loop methods are proved against it: the per-file loop and the attribute-key loop.
- `ScriptRunnerMain` (script_runner.dfy): `main` itself.
  - A class holds the state `main` works on: the static runner and `numFiles`, and `main`'s local attribute map, which the tree walk's visitor captures and updates.
  - `Execute` returns the termination (an exit code, or normal completion) and the printed lines.
  - Its contract relates the whole run to the specification functions above.

Printing is modelled as a sequence of `println` arguments, one per call.

## Model

| member | source | states |
|---|---|---|
| ScriptEngines.ToLowerLeavesNoCapital | src/main/java/nifi/ScriptRunner.java:107 | the lower-cased text holds no ASCII capital, and every other character is kept in place |
| ScriptEngines.ToLowerIdempotent | src/main/java/nifi/ScriptRunner.java:107 | lower-casing twice is lower-casing once |
| ScriptEngines.ToLowerSuffix | src/main/java/nifi/ScriptRunner.java:107 | lower-casing and then taking a suffix is taking the suffix and then lower-casing |
| ScriptEngines.LastIndexOf | src/main/java/nifi/ScriptRunner.java:107 | -1 exactly when the character is absent; otherwise the index of an occurrence with none after it |
| ScriptEngines.Extension | src/main/java/nifi/ScriptRunner.java:107 | the extension never contains a `.` and is no longer than the path |
| ScriptEngines.ExtensionOfSuffix | src/main/java/nifi/ScriptRunner.java:107 | for any prefix, the extension of prefix + "." + ext (no `.` in ext) is ext lower-cased |
| ScriptEngines.ExtensionWithoutDot | src/main/java/nifi/ScriptRunner.java:107 | a path without `.` has the whole lower-cased path as its extension |
| ScriptEngines.SelectEngine | src/main/java/nifi/ScriptRunner.java:107-117 | ECMAScript exactly for extension js, python exactly for py, ruby exactly for rb, lua exactly for lua |
| ScriptEngines.SelectEngineTotal | src/main/java/nifi/ScriptRunner.java:107-117 | the engine name is one of ECMAScript, python, ruby, lua, Groovy; Groovy exactly when the extension is not js, py, rb or lua |
| ScriptEngines.ExtensionIgnoresCase | src/main/java/nifi/ScriptRunner.java:107 | lower-casing the path first leaves its extension unchanged |
| ScriptEngines.SelectEngineIgnoresCase | src/main/java/nifi/ScriptRunner.java:107-117 | lower-casing the path first never changes the selected engine |
| ScriptEngines.UpperCaseJavaScript | src/main/java/nifi/ScriptRunner.java:107-110 | x.JS selects ECMAScript |
| CommandOptions.Resolved | src/main/java/nifi/ScriptRunner.java:217-231 | success = not no-success and (success or all or all-rels); failure = failure or all or all-rels; attrs = attrs or all; content = content or all; the three shorthand flags are unchanged |
| CommandOptions.AllIsShorthand | src/main/java/nifi/ScriptRunner.java:217-222 | -all gives the same outputs as -attrs -content -success -failure |
| CommandOptions.NoSuccessAfterAll | src/main/java/nifi/ScriptRunner.java:217-231 | -all with -no-success: attributes, content and failure on, success off |
| CommandOptions.Options.constructor | src/main/java/nifi/ScriptRunner.java:209-211 | the object holds exactly the parsed options |
| CommandOptions.Options.Resolve | src/main/java/nifi/ScriptRunner.java:217-231 | the flags become their resolved form; the paths are untouched |
| FlowFiles.RouteDelivers | src/main/java/nifi/ScriptRunner.java:184-186 | recording transfers appends to each relationship's list exactly the flow files sent to it, in transfer order, after what it held |
| FlowFiles.PassTakesHead | src/main/java/nifi/ScriptRunner.java:184-186 | a pass counts itself, removes the head of the queue (nothing from an empty queue) and appends what the script sends to each relationship for that head |
| FlowFiles.RunPassesConsumesInOrder | src/main/java/nifi/ScriptRunner.java:183-187 | n passes take min(n, queue length) flow files from the front of the queue, in FIFO order, and count n passes |
| FlowFiles.RunPassesDrains | src/main/java/nifi/ScriptRunner.java:183-187 | at least as many passes as queued files empty the queue |
| FlowFiles.AllToSuccessMovesPrefix | src/main/java/nifi/ScriptRunner.java:183-187 | with a script that routes every input to success, n passes append the first n queued files to success, in order, and leave failure alone |
| FlowFiles.RouteAddsEach | src/main/java/nifi/ScriptRunner.java:184-186 | routing k transfers adds exactly k flow files across the relationship lists |
| FlowFiles.OneToOneConserves | src/main/java/nifi/ScriptRunner.java:183-187 | with a script that routes each input to exactly one relationship, queued plus transferred files stay constant over the passes |
| FlowFiles.Runner.constructor | src/main/java/nifi/ScriptRunner.java:123 | a new runner has an empty queue, no transfers, no passes and no properties |
| FlowFiles.Runner.SetProperty | src/main/java/nifi/ScriptRunner.java:127-130 | sets one property and nothing else |
| FlowFiles.Runner.Enqueue | src/main/java/nifi/ScriptRunner.java:172 | appends one flow file with the content and a snapshot of the attributes at the tail of the queue |
| FlowFiles.Runner.Run | src/main/java/nifi/ScriptRunner.java:184-186 | the runner state becomes that after the given number of passes |
| Ingestion.StdinPayloads | src/main/java/nifi/ScriptRunner.java:148-155 | one flow file with the input and the base attributes exactly when bytes are available, none otherwise |
| Ingestion.AsFlowFilesAppend | src/main/java/nifi/ScriptRunner.java:172 | enqueueing two runs of payloads one after the other numbers the second run from where the first stopped |
| Ingestion.AdmittedAtMostRegular | src/main/java/nifi/ScriptRunner.java:167-176 | the walk queues at most one flow file per regular file, and each carries a filename attribute |
| Ingestion.AdmittedCountsRegularFiles | src/main/java/nifi/ScriptRunner.java:167-176 | without an I/O error, exactly one flow file per regular file is queued |
| Ingestion.AdmittedFromVisitedFiles | src/main/java/nifi/ScriptRunner.java:169-174 | every queued flow file carries the bytes of a visited regular file, and its attributes are the base attributes with filename set to that file's name |
| Ingestion.FilenameOverridesBase | src/main/java/nifi/ScriptRunner.java:171-172 | a queued file's attribute keys are the base keys plus filename; every other base value is kept |
| Ingestion.EveryRegularFileAdmitted | src/main/java/nifi/ScriptRunner.java:170-173 | without an I/O error, every regular file is read and queued with its name |
| Ingestion.WalkStopsAtFailure | src/main/java/nifi/ScriptRunner.java:167-181 | nothing after the first visit that throws is queued; everything before it is |
| Report.DecimalString | src/main/java/nifi/ScriptRunner.java:262 | a non-empty string of digits without a leading zero |
| Report.DecimalRoundTrip | src/main/java/nifi/ScriptRunner.java:262 | the printed count reads back as the count |
| Report.MapEntriesAt | src/main/java/nifi/ScriptRunner.java:250-252 | one entry per listed key, in order, with the attribute's value ("null" for a key not in the map) |
| Report.MapEntriesListEachAttributeOnce | src/main/java/nifi/ScriptRunner.java:250-252 | when the keys enumerate the map, the entries list each attribute once with its value, and nothing else |
| Report.AppendAttributeEntries | src/main/java/nifi/ScriptRunner.java:250-252 | the key loop appends the entries of all keys, in order |
| Report.BuildAttributeMessage | src/main/java/nifi/ScriptRunner.java:241-254 | the message built is the attribute block of the flow file |
| Report.AttributeBlockListsEachAttributeOnce | src/main/java/nifi/ScriptRunner.java:249-252 | when the key sequence enumerates the flow file's attribute map, the block's map part lists each attribute exactly once with its value, and nothing else |
| Report.AttributeBlockFramed | src/main/java/nifi/ScriptRunner.java:242-254 | the block opens with the flow file's description and a dashed line and closes with a dashed line |
| Report.ItemGroupsSnoc | src/main/java/nifi/ScriptRunner.java:239-261 | one more flow file adds its own group of lines after those of the earlier files |
| Report.ItemLinesShape | src/main/java/nifi/ScriptRunner.java:240-260 | each file prints its attribute block if attrs is on, then its decoded content if content is on, then the empty line |
| Report.OutputFlowFilesForRelationship | src/main/java/nifi/ScriptRunner.java:235-263 | the loop prints exactly the relationship's report |
| Report.ReportLength | src/main/java/nifi/ScriptRunner.java:239-262 | n flow files give n times the lines per file plus one summary line |
| Report.ReportItemAt | src/main/java/nifi/ScriptRunner.java:239-261 | the i-th file's lines are at positions i*k to (i+1)*k, and the last of them is empty |
| Report.ReportSummary | src/main/java/nifi/ScriptRunner.java:262 | the last line is "Flow Files transferred to <name>: <count>" plus a newline, where count reads back as the number of files |
| Report.ReportEmptyIffNull | src/main/java/nifi/ScriptRunner.java:237-262 | a relationship prints nothing exactly when its list is null; otherwise its last line is the summary with the list's size |
| ScriptRunnerMain.ExitCode | src/main/java/nifi/ScriptRunner.java:99-166 | 1 on a usage error; else 2 when the script is missing; else 5 when a named attribute file is missing or unreadable; else 3 when a named input directory is missing; else 4 when it is not a directory; otherwise no exit |
| ScriptRunnerMain.ConfiguredPropertiesKeys | src/main/java/nifi/ScriptRunner.java:127-131 | the properties are the engine and the script path, plus the module paths exactly when given |
| ScriptRunnerMain.BaseAttributesFromNamedFile | src/main/java/nifi/ScriptRunner.java:136-145 | no base attributes without an attribute file; with a named file that loads, exactly its properties; any base attributes are those of the loaded file |
| ScriptRunnerMain.IngestedBounds | src/main/java/nifi/ScriptRunner.java:147-181 | standard input queues at most one flow file, with the base attributes; a directory at most one per regular file |
| ScriptRunnerMain.ReportsEndWithSummary | src/main/java/nifi/ScriptRunner.java:188-194 | nothing is printed exactly when both the success and failure flags are off; otherwise the output ends with the summary of failure if that flag is on, else of success |
| ScriptRunnerMain.RunCount | src/main/java/nifi/ScriptRunner.java:183-187 | at least one run, at least one per counted file, and either exactly one or exactly numFiles |
| ScriptRunnerMain.CountedFilesAllProcessed | src/main/java/nifi/ScriptRunner.java:183-187 | the run count, numFiles if above one and otherwise one, takes every counted file off the queue with at least one pass |
| ScriptRunnerMain.StdinModeSinglePass | src/main/java/nifi/ScriptRunner.java:148-187 | standard-input mode counts no file, makes exactly one pass and consumes what it queued |
| ScriptRunnerMain.AllToSuccessReportsEveryFile | src/main/java/nifi/ScriptRunner.java:183-189 | with a script that routes all to success, success holds exactly the queued files, in order, and failure none, for any number of files including zero and one |
| ScriptRunnerMain.ScriptRunner.constructor | src/main/java/nifi/ScriptRunner.java:95 | no runner yet, numFiles 0 |
| ScriptRunnerMain.ScriptRunner.ParseCommandLine | src/main/java/nifi/ScriptRunner.java:208-233 | no options exactly on a usage error; otherwise new options holding the parsed values with resolved flags |
| ScriptRunnerMain.ScriptRunner.VisitFile | src/main/java/nifi/ScriptRunner.java:169-176 | a regular file sets filename in the shared map and, if readable, is queued with that map and counted; a failed read throws; other files change nothing |
| ScriptRunnerMain.ScriptRunner.WalkFileTree | src/main/java/nifi/ScriptRunner.java:167-177 | the queue grows by the admitted flow files and numFiles by their number; throws exactly when some visit throws |
| ScriptRunnerMain.ScriptRunner.ConfigureRunner | src/main/java/nifi/ScriptRunner.java:107-131 | a fresh, empty runner whose properties are the selected engine, the script path and the module paths when given |
| ScriptRunnerMain.ScriptRunner.LoadAttributes | src/main/java/nifi/ScriptRunner.java:136-145 | exit code 5 exactly when a named attribute file is missing or unreadable; otherwise the shared map holds the base attributes |
| ScriptRunnerMain.ScriptRunner.QueueInput | src/main/java/nifi/ScriptRunner.java:147-181 | exit code 3 or 4 for a bad input directory with nothing queued; otherwise the queue grows by what the input mode admits, and numFiles only in directory mode |
| ScriptRunnerMain.ScriptRunner.RunProcessor | src/main/java/nifi/ScriptRunner.java:183-187 | the runner state becomes that after RunCount(numFiles) passes |
| ScriptRunnerMain.ScriptRunner.PrintReports | src/main/java/nifi/ScriptRunner.java:188-194 | prints the success report, then the failure report, each only if its flag is on |
| ScriptRunnerMain.ScriptRunner.ExecuteWithScript | src/main/java/nifi/ScriptRunner.java:107-195 | once the script exists: exits as ExitCode decides with nothing printed and nothing queued or run, or completes with the configured runner, the admitted input run RunCount(numFiles) times and the enabled reports printed |
| ScriptRunnerMain.ScriptRunner.Execute | src/main/java/nifi/ScriptRunner.java:97-195 | ends as ExitCode decides; a fatal exit prints nothing, and an exit after the runner exists leaves it with no flow file queued or run; a completed run has the configured properties, queues what the input mode admits, makes RunCount(numFiles) passes, and prints the enabled reports in order |

## Left out

- Command-line parsing and usage text: the picocli annotations and `CommandLine.usage` are library code. The model starts from the parser's outcome, either a usage error or the populated options.
- The ExecuteScript processor: its configuration, `assertValid` and the script run itself are NiFi library code. A pass is an uninterpreted function from the head of the queue to transfers. The relationship names "success" and "failure" stand for NiFi's `REL_SUCCESS` and `REL_FAILURE`, which are not part of this model.
- Standard input: `System.in.available()` and the character read are parameters, namely the available count and the data read. A short read, the character decoding, and an IOException from `available` are not modelled.
- The file system: `Files.exists`, `Files.isDirectory`, `walkFileTree` and `readAllBytes` become the given environment and visit sequence. The walk's visiting order is whatever that sequence holds.
- The printed stack trace of the IOException is not modelled.
- `Properties.load` parsing is not modelled: a readable attribute file is given as its key/value map.
- `MockFlowFile.toString`, the `Date` rendering of entry and lineage dates, byte-to-String decoding and the attribute keys are opaque: they are fields of a `Formatter` record.
- The attribute keys: the formatter's `keyOrder` is an arbitrary key sequence per map, so the model leaves open both the order and the set of keys that `keySet()` yields. The promise that each attribute appears once with its value is stated only for a key sequence that enumerates the map. Report.AttributeBlockListsEachAttributeOnce makes that assumption explicit, and no contract of `PrintReports` or `Execute` carries it.
- `runner.assertValid()` (ScriptRunner.java:133) is not modelled. A failed validation throws and ends `main` after the runner is configured and before the attribute file is read. The model's `Execute` always ends with an `ExitCode` code or completes.
- Error-stream messages are not modelled, only the exit codes. That includes line 103 printing `args[0]` rather than the script path.
- ScriptEngines.ToLower: lower-cases ASCII letters only, not the full Unicode case mapping of `String.toLowerCase`. No other letter can turn into one of the ASCII extensions js, py, rb or lua, so engine selection is unaffected. Locale rules such as the Turkish dotted I are not modelled.
- ScriptRunnerMain.ScriptRunner.Execute: `numFiles` is an unbounded natural number, so the 32-bit overflow of the Java `int` after 2^31 files is not modelled.
- ScriptRunnerMain.ScriptRunner.WalkFileTree: the walk ends at the first I/O error. `visitFile` (or the default `visitFileFailed`) rethrows, `walkFileTree` stops, and `main` catches the exception at ScriptRunner.java:179. The processor then runs on the files queued so far.
- FlowFiles.Runner.Enqueue: the attributes that `MockFlowFile` gives every flow file on its own (`filename`, `path`, `uuid`) are not modelled. A queued flow file carries only the attributes `main` passes. The printed attribute map therefore lacks `path` and `uuid`, and in standard-input mode the generated `filename`.
- FlowFiles.Pass: a pass always takes the head of the queue, if any, and hands it to the script. A script that takes no flow file, takes several, or throws is not modelled. A throw fails `TestRunner.run`, and `main` then dies before printing any report.
- Report.MapEntriesListEachAttributeOnce: the block lists the three fixed keys entryDate, lineageStartDate and fileSize before the attribute map. An attribute with one of those names therefore appears twice in the block; the lemma speaks of the attribute-map part only.

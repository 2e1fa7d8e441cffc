# Command-line ingest and result-file sorting, modelled in Dafny

This project models two parts of Autopsy, a digital-forensics application.

- **The command-line batch pipeline** (`CommandLineIngestManager` and its job processing task). It runs a list of commands in order, stopping at the first failure:
  - `CREATE_CASE`: create a case for a name under a base folder. The name is refused when a case folder for it already exists.
  - `ADD_DATA_SOURCE`: add a data source through a ranked list of data source processors.
  - `RUN_INGEST`: run the ingest modules on the data source and classify how the ingest job ended.
  - `LIST_ALL_DATA_SOURCES`: list the case's data sources.

  `ADD_DATA_SOURCE`, `RUN_INGEST` and `LIST_ALL_DATA_SOURCES` open an existing case from its case folder when none is open yet. This includes finding the case metadata (`.aut`) file. Whatever happens, the task then closes the current case and shuts the application down.
- **The result-file sorter** (`FileSorter`). Given the sorting method, it builds a list of comparators over result files. Its own `compare` currently returns 0.

Modules and files:

| file | module | what it holds |
|---|---|---|
| `wrappers.dfy` | `Wrappers` | `Option` (Java null) and `Result` (a thrown exception) |
| `java_text.dfy` | `JavaText` | the Java library behaviour the code relies on: `String.toLowerCase`, `endsWith`, `compareTo`, `Long.compare`, `Long.valueOf` |
| `files.dfy` | `Files` | the file system as `java.io.File` sees it: a map from folder path to listing |
| `case_folders.dfy` | `CaseFolders` | `findAutFile`, `CaseFolderFilter`, `findCaseDirectory`, `createCaseFolderPath` |
| `data_sources.dfy` | `DataSources` | `runDataSourceProcessor` and the data source it fills in |
| `analysis.dfy` | `Ingest` | `analyze` and `IngestJobEventListener` |
| `pipeline.dfy` | `CommandLineIngest` | the command arms as functions from state to state, and the class `CommandLineIngestManager`, whose methods are proved against them |
| `pipeline_properties.dfy` | `PipelineProperties` | command order, the close and exit protocol, the firewall, and a second `CREATE_CASE` for the same name |
| `file_sorter.dfy` | `FileSorting` | the comparators, `compareStrings`, the class `FileSorter` |

How the environment is modelled:

- **Library and back-end results.** Everything the task asks of the rest of the application is a value of type `CommandLineIngest.Env`:
  - the time-stamp format and the clock;
  - whether each `Case` call succeeds;
  - the ranked processor list per data-source path;
  - `getContentById`;
  - the ingest settings warnings and `beginIngestJob`.
- **The file system.** It is a state field (`disk`) of the manager. This way a later command sees the case folder and metadata file an earlier `CREATE_CASE` created.
- **The two waits on the ingest lock.** Each becomes a synchronous call:
  - a processor attempt either calls back with its result or never calls back;
  - an ingest job delivers its events to the listener, and the wait ends at the first event the listener accepts.

  A wait that never ends is the outcome `Hung`. In that case the model runs no cleanup, as in the source.
- **Observable effects.** Case creation and opening, ingest-manager calls, saved command output, case closes and the exit are recorded as a sequence of `Event`s. The properties are stated over that sequence.

## Model

| member | source | states |
|---|---|---|
| CaseFolders.FindAutFile | Core/src/org/sleuthkit/autopsy/commandlineingest/CommandLineIngestManager.java:353-373 | the early-exit scan returns exactly what `AutFile` specifies: a missing folder, a folder that cannot be listed, or no metadata file each give their own CaseActionException, otherwise the path of the first metadata file |
| CaseFolders.AutFileIsFirstMetadataFile | Core/src/org/sleuthkit/autopsy/commandlineingest/CommandLineIngestManager.java:353-373 | findAutFile succeeds iff the folder is listed and some entry's lower-cased name ends with ".aut"; the path returned is that of the first such entry, and no earlier entry has such a name |
| CaseFolders.FirstMetadataFromIsFirst | Core/src/org/sleuthkit/autopsy/commandlineingest/CommandLineIngestManager.java:364-369 | the scan stops at the first metadata name, and finds none exactly when no entry has one |
| CaseFolders.HasCaseMetadataFile | Core/src/org/sleuthkit/autopsy/commandlineingest/CommandLineIngestManager.java:729-736 | true iff the folder holds a file whose lower-cased name ends with ".aut"; a folder whose listing is null throws a NullPointerException |
| CaseFolders.Accept | Core/src/org/sleuthkit/autopsy/commandlineingest/CommandLineIngestManager.java:704-719 | the filter method computes exactly `Accepts` |
| CaseFolders.AcceptsIff | Core/src/org/sleuthkit/autopsy/commandlineingest/CommandLineIngestManager.java:704-719 | an entry is accepted iff all of these hold: its name is longer than the time stamp, it is a directory, the name ends with a time stamp, the prefix equals the case name (any prefix for a null name), and the folder holds a metadata file; the filter throws iff the entry qualifies but its folder cannot be listed |
| CaseFolders.ListCaseFolders | Core/src/org/sleuthkit/autopsy/commandlineingest/CommandLineIngestManager.java:588 | the loop over the listing computes exactly `FilteredFrom`, the filtered listing |
| CaseFolders.FilteredFromFails | Core/src/org/sleuthkit/autopsy/commandlineingest/CommandLineIngestManager.java:588 | the filtered listing from an entry on throws iff the filter throws on one of those entries |
| CaseFolders.FilteredFromIsAcceptedEntries | Core/src/org/sleuthkit/autopsy/commandlineingest/CommandLineIngestManager.java:588 | a filtered listing that does not throw appends exactly `AcceptedFrom`, the accepted entries in listing order |
| CaseFolders.ListingIsAcceptedEntries | Core/src/org/sleuthkit/autopsy/commandlineingest/CommandLineIngestManager.java:588 | `File.list` with the filter throws iff the filter throws on some entry, and otherwise returns exactly the accepted entries, in listing order |
| CaseFolders.AcceptedFromMembers | Core/src/org/sleuthkit/autopsy/commandlineingest/CommandLineIngestManager.java:588 | an entry is among the accepted entries iff it is listed and the filter accepts it: nothing else is kept and nothing accepted is dropped |
| CaseFolders.FilteredFromKeeps | Core/src/org/sleuthkit/autopsy/commandlineingest/CommandLineIngestManager.java:588 | every entry the filter accepts is among the listed candidates |
| CaseFolders.CandidatesAreAcceptedEntries | Core/src/org/sleuthkit/autopsy/commandlineingest/CommandLineIngestManager.java:581-588 | a missing or non-directory base gives no candidates (null); an unreadable base throws a NullPointerException; a listed base throws iff the filter throws on one of its entries, and otherwise its candidates are exactly its accepted entries, in order |
| CaseFolders.CaseDirectory | Core/src/org/sleuthkit/autopsy/commandlineingest/CommandLineIngestManager.java:581-597 | findCaseDirectory can only fail with a NullPointerException, from a listing that is null |
| CaseFolders.FindCaseDirectory | Core/src/org/sleuthkit/autopsy/commandlineingest/CommandLineIngestManager.java:581-597 | the loop over the candidates, keeping `mostRecentModified` and `caseFolderPath`, returns exactly `CaseDirectory` |
| CaseFolders.MostRecentIndexIsLastMaximum | Core/src/org/sleuthkit/autopsy/commandlineingest/CommandLineIngestManager.java:589-595 | starting from 0 and taking a candidate whenever its time is >= the best so far: none is taken iff every time is negative; otherwise the one taken has a non-negative, maximal time and every later candidate is strictly older |
| CaseFolders.CaseDirectoryIsMostRecent | Core/src/org/sleuthkit/autopsy/commandlineingest/CommandLineIngestManager.java:581-597 | throws iff listing the case folders throws; null when the base is missing or not a directory, and null iff there is no candidate; otherwise the path to a candidate with the latest time, no later-listed candidate being as recent |
| CaseFolders.CaseDirectoryOverListing | Core/src/org/sleuthkit/autopsy/commandlineingest/CommandLineIngestManager.java:581-597 | stated over the base folder's own entries: null for a missing or non-directory base, a NullPointerException for an unreadable one; for a listed base it throws iff the filter throws on some entry, is null iff the filter rejects every entry, and otherwise is the path of an accepted entry that no accepted entry is more recent than |
| CaseFolders.AsWrittenAgreesOnNullness | Core/src/org/sleuthkit/autopsy/commandlineingest/CommandLineIngestManager.java:587-597 | findCaseDirectory as written, reading times relative to any working directory, throws iff the corrected search throws and returns null iff it returns null |
| CaseFolders.CaseDirectoryAsWrittenPicksOlderFolder | Core/src/org/sleuthkit/autopsy/commandlineingest/CommandLineIngestManager.java:590-591 | as written, with two case folders modified at 200 and 100 and a working directory holding neither, findCaseDirectory returns the older folder |
| CaseFolders.CaseDirectoryPicksNewerFolder | Core/src/org/sleuthkit/autopsy/commandlineingest/CommandLineIngestManager.java:581-597 | reading each candidate's time inside the search folder, the same example returns the newer folder |
| CaseFolders.CreatedFolderIsAccepted | Core/src/org/sleuthkit/autopsy/commandlineingest/CommandLineIngestManager.java:566-569 | a folder named `<name>_<time stamp>` by createCaseFolderPath, for a non-empty name, is accepted by the filter for that name once it holds a metadata file |
| DataSources.RunDataSourceProcessor | Core/src/org/sleuthkit/autopsy/commandlineingest/CommandLineIngestManager.java:390-440 | the loop with `continue`, `return` and `throw` computes exactly `Acquire` |
| DataSources.AcquireFromStopsAtFirst | Core/src/org/sleuthkit/autopsy/commandlineingest/CommandLineIngestManager.java:414-434 | the loop stops at the first processor that succeeds or never calls back, keeping that processor's output; every earlier processor failed; it throws iff every processor failed |
| DataSources.AcquireIsRankedFallback | Core/src/org/sleuthkit/autopsy/commandlineingest/CommandLineIngestManager.java:398-438 | a failed lookup throws; an empty list returns normally, invoking nothing and leaving the data source as it was; an accepted processor at rank k is the first success, every earlier one failed, and the data source holds its result; it throws "all failed" iff the list is non-empty and every processor failed |
| DataSources.AcquireFromIgnoresLaterRanks | Core/src/org/sleuthkit/autopsy/commandlineingest/CommandLineIngestManager.java:414-431 | once the loop from rank i accepts or stalls at rank k, any processor list that agrees on ranks i..k gives the same outcome and data source |
| DataSources.NoLaterProcessorInvoked | Core/src/org/sleuthkit/autopsy/commandlineingest/CommandLineIngestManager.java:414-431 | no processor after the accepted or stalled one is invoked: replacing or removing every later processor changes neither the outcome nor the data source |
| Ingest.FirstNotifyingIsFirst | Core/src/org/sleuthkit/autopsy/commandlineingest/CommandLineIngestManager.java:628-637 | the wait ends at the first local job-completed or job-cancelled event, and never ends when there is none |
| Ingest.AwaitNotification | Core/src/org/sleuthkit/autopsy/commandlineingest/CommandLineIngestManager.java:512 | the wait returns iff some delivered event makes the listener notify |
| Ingest.FirstFatalIsFirst | Core/src/org/sleuthkit/autopsy/commandlineingest/CommandLineIngestManager.java:516-535 | the snapshot loop throws at the first snapshot cancelled for a reason other than "not cancelled" or "user cancelled", and completes when there is none |
| Ingest.Analyze | Core/src/org/sleuthkit/autopsy/commandlineingest/CommandLineIngestManager.java:495-555 | analyze computes exactly `AnalysisOf`, both the outcome and the calls on the ingest manager |
| Ingest.AnalysisClassification | Core/src/org/sleuthkit/autopsy/commandlineingest/CommandLineIngestManager.java:504-554 | settings warnings throw before any job is begun; a null job throws, with or without module errors; once woken, analysis fails iff a snapshot is fatally cancelled (cancelled modules alone never fail it); the listener added first is removed last on every path except an endless wait |
| Ingest.FatalCancellationNamesFirstReason | Core/src/org/sleuthkit/autopsy/commandlineingest/CommandLineIngestManager.java:528-533 | the failure names the reason of the first fatally cancelled snapshot |
| CommandLineIngest.OpenExistingCaseStep | Core/src/org/sleuthkit/autopsy/commandlineingest/CommandLineIngestManager.java:333-342 | the case opened is the one in the given folder, which must be listed and hold a metadata file; a null folder is a NullPointerException; a failed open changes nothing |
| CommandLineIngest.EnsureCaseStep | Core/src/org/sleuthkit/autopsy/commandlineingest/CommandLineIngestManager.java:166-169 | an open case is kept and nothing happens; otherwise the case in CASE_FOLDER_PATH is opened; a failure changes nothing |
| CommandLineIngest.OpenNewCaseStep | Core/src/org/sleuthkit/autopsy/commandlineingest/CommandLineIngestManager.java:300-325 | throws "already exists" iff findCaseDirectory finds a folder, and then creates nothing; on success the case is `<base>/<name>_<time stamp>`, replacing any case that was open |
| PipelineProperties.CreateCaseRefusesAsWritten | Core/src/org/sleuthkit/autopsy/commandlineingest/CommandLineIngestManager.java:306-312 | openCase, and so CREATE_CASE, throws "already exists" exactly when findCaseDirectory as written finds a folder, whatever the working directory |
| CommandLineIngest.CreateCaseStep | Core/src/org/sleuthkit/autopsy/commandlineingest/CommandLineIngestManager.java:143-158 | CREATE_CASE replaces `caseForJob` with the new case, whether or not one was open, and on success its last event saves the output in the new case's "Command Output" folder (lines 605-607); it throws "already exists" iff a case folder for the name exists, and then leaves the state as it was; it never touches the data source |
| CommandLineIngest.AddDataSourceStep | Core/src/org/sleuthkit/autopsy/commandlineingest/CommandLineIngestManager.java:159-184 | on success a case is open, the last event saves the output in its "Command Output" folder (lines 605-607), and the data source is for the given path, and either passed the processor checks or is untouched because no processor was listed; a processor exception means the lookup failed or every processor failed; an open case is kept |
| CommandLineIngest.DataSourceForIngestStep | Core/src/org/sleuthkit/autopsy/commandlineingest/CommandLineIngestManager.java:198-226 | an existing data source is reused; otherwise DATA_SOURCE_ID is parsed and looked up, and a found content gives a data source with exactly that one content, NO_ERRORS and no error messages; it stops with "not found" iff the lookup returned null |
| CommandLineIngest.RunIngestStep | Core/src/org/sleuthkit/autopsy/commandlineingest/CommandLineIngestManager.java:185-237 | an open case and an existing data source are kept; a stop before analysis makes no ingest-manager call; an analysis failure or success is the one `AnalysisOf` gives for the data source's content |
| CommandLineIngest.ListAllDataSourcesStep | Core/src/org/sleuthkit/autopsy/commandlineingest/CommandLineIngestManager.java:239-260 | on success the last event is the saved data-source list in the open case's "Command Output" folder (lines 605-607); it never blocks and does not touch the data source or the disk |
| CommandLineIngest.DispatchStep | Core/src/org/sleuthkit/autopsy/commandlineingest/CommandLineIngestManager.java:140-264 | each arm stops only with a fault it can raise; only ADD_DATA_SOURCE and RUN_INGEST can block; only CREATE_CASE changes the disk or replaces an open case; only ADD_DATA_SOURCE and RUN_INGEST change the data source; no arm starts a command, closes the case or exits |
| CommandLineIngest.CommandLineIngestManager.constructor | Core/src/org/sleuthkit/autopsy/commandlineingest/CommandLineIngestManager.java:71-76 | no case and no data source to begin with |
| CommandLineIngest.CommandLineIngestManager.OpenExistingCase | Core/src/org/sleuthkit/autopsy/commandlineingest/CommandLineIngestManager.java:333-342 | the new state and step are those of `OpenExistingCaseStep` |
| CommandLineIngest.CommandLineIngestManager.EnsureCase | Core/src/org/sleuthkit/autopsy/commandlineingest/CommandLineIngestManager.java:166-169 | the new state and step are those of `EnsureCaseStep` |
| CommandLineIngest.CommandLineIngestManager.OpenNewCase | Core/src/org/sleuthkit/autopsy/commandlineingest/CommandLineIngestManager.java:300-325 | the new state and step are those of `OpenNewCaseStep` |
| CommandLineIngest.CommandLineIngestManager.CreateCase | Core/src/org/sleuthkit/autopsy/commandlineingest/CommandLineIngestManager.java:143-158 | the new state and step are those of `CreateCaseStep` |
| CommandLineIngest.CommandLineIngestManager.AddDataSource | Core/src/org/sleuthkit/autopsy/commandlineingest/CommandLineIngestManager.java:159-184 | the new state and step are those of `AddDataSourceStep` |
| CommandLineIngest.CommandLineIngestManager.DataSourceForIngest | Core/src/org/sleuthkit/autopsy/commandlineingest/CommandLineIngestManager.java:198-226 | the new state and step are those of `DataSourceForIngestStep` |
| CommandLineIngest.CommandLineIngestManager.RunIngest | Core/src/org/sleuthkit/autopsy/commandlineingest/CommandLineIngestManager.java:185-237 | the new state and step are those of `RunIngestStep` |
| CommandLineIngest.CommandLineIngestManager.ListAllDataSources | Core/src/org/sleuthkit/autopsy/commandlineingest/CommandLineIngestManager.java:239-260 | the new state and step are those of `ListAllDataSourcesStep` |
| CommandLineIngest.CommandLineIngestManager.Stop | Core/src/org/sleuthkit/autopsy/commandlineingest/CommandLineIngestManager.java:82-92 | stop() closes the current case and then exits, changing nothing else |
| CommandLineIngest.CommandLineIngestManager.Dispatch | Core/src/org/sleuthkit/autopsy/commandlineingest/CommandLineIngestManager.java:142-264 | the switch on the command type gives the new state and step of `DispatchStep` |
| CommandLineIngest.CommandLineIngestManager.Run | Core/src/org/sleuthkit/autopsy/commandlineingest/CommandLineIngestManager.java:112-291 | the command loop, the inner finally and stop() produce exactly the outcome and state `RunOf` gives |
| PipelineProperties.RunFromStartsInOrder | Core/src/org/sleuthkit/autopsy/commandlineingest/CommandLineIngestManager.java:140-264 | commands start in list order, and none starts after the one that failed or blocked; the loop itself neither closes the case nor exits |
| PipelineProperties.RunClosesAndExitsOnce | Core/src/org/sleuthkit/autopsy/commandlineingest/CommandLineIngestManager.java:112-291 | null or empty list: only stop() runs (close, exit). Otherwise: starts of commands 0..k in order, then, unless the task blocks for ever, close, close, exit; so the exit happens exactly once, and last |
| PipelineProperties.FailuresReachFirewall | Core/src/org/sleuthkit/autopsy/commandlineingest/CommandLineIngestManager.java:140-282 | a failing command fails with a fault its arm can raise; its arm catches it unless it is an AnalysisStartupException, NullPointerException or NumberFormatException, which reach the Throwable firewall; analysis failures come only from RUN_INGEST |
| PipelineProperties.CreatedCaseIsFound | Core/src/org/sleuthkit/autopsy/commandlineingest/CommandLineIngestManager.java:300-325 | after CREATE_CASE has created the folder and metadata file of a case with a non-empty name, findCaseDirectory for that name under the same base finds a folder |
| PipelineProperties.DuplicateCaseNameStopsRun | Core/src/org/sleuthkit/autopsy/commandlineingest/CommandLineIngestManager.java:308-312 | two CREATE_CASE commands for the same name and base fail at the second command with the caught "already exists" CaseActionException |
| JavaText.ParseLong | Core/src/org/sleuthkit/autopsy/commandlineingest/CommandLineIngestManager.java:201 | a parsed DATA_SOURCE_ID is within the range of a Java long |
| JavaText.ParseLongDecimalString | Core/src/org/sleuthkit/autopsy/commandlineingest/CommandLineIngestManager.java:201 | Long.valueOf reads back any decimal object id in range, with or without a minus sign |
| JavaText.CompareToAntisymmetric | Core/src/org/sleuthkit/autopsy/newpackage/FileSorter.java:160 | swapping the strings negates String.compareTo exactly |
| JavaText.CompareToZeroIff | Core/src/org/sleuthkit/autopsy/newpackage/FileSorter.java:160 | String.compareTo is zero exactly on equal strings |
| JavaText.CompareToTransitive | Core/src/org/sleuthkit/autopsy/newpackage/FileSorter.java:160 | String.compareTo orders transitively |
| JavaText.LongCompare | Core/src/org/sleuthkit/autopsy/newpackage/FileSorter.java:62 | Long.compare is -1, 0 or 1; negative iff less, zero iff equal |
| FileSorting.CompareStringsProperties | Core/src/org/sleuthkit/autopsy/newpackage/FileSorter.java:153-161 | null compares as "" (so null vs "" and null vs null are 0); otherwise compareStrings is String.compareTo; zero iff equal after that reading; swapping negates it |
| FileSorting.SizeDescendingDataSourceAscending | Core/src/org/sleuthkit/autopsy/newpackage/FileSorter.java:57-65 | the size comparator (lines 104-112) is exactly the negation of Long.compare, so larger files come first; the data-source comparator orders by ascending object id |
| FileSorting.DefaultComparatorZeroIff | Core/src/org/sleuthkit/autopsy/newpackage/FileSorter.java:131-143 | the default comparator ties exactly the files with equal names (null read as "") and equal ids |
| FileSorting.ComparatorAntisymmetric | Core/src/org/sleuthkit/autopsy/newpackage/FileSorter.java:57-143 | for every comparator, swapping the files negates the result exactly |
| FileSorting.ComparatorTieSubstitutes | Core/src/org/sleuthkit/autopsy/newpackage/FileSorter.java:57-143 | files a comparator ties compare alike against any third file |
| FileSorting.ComparatorTransitive | Core/src/org/sleuthkit/autopsy/newpackage/FileSorter.java:57-143 | every comparator orders files transitively |
| FileSorting.FileSorter.constructor | Core/src/org/sleuthkit/autopsy/newpackage/FileSorter.java:19-49 | the comparator list for each method (BY_FILE_NAME falls through to the empty default case): data source, size, type then MIME, frequency, or name, each followed by the default comparator; the default alone for keyword-list names and parent path; the list is never empty, ends with the default, and never holds the parent-path comparator |
| FileSorting.LexicographicAntisymmetric | Core/src/org/sleuthkit/autopsy/newpackage/FileSorter.java:46-48 | the chained comparison negates exactly when the files are swapped |
| FileSorting.LexicographicZeroIff | Core/src/org/sleuthkit/autopsy/newpackage/FileSorter.java:46-48 | the chained comparison is zero iff every comparator in the list ties the files |
| FileSorting.LexicographicTieSubstitutes | Core/src/org/sleuthkit/autopsy/newpackage/FileSorter.java:46-48 | files the chain ties compare alike against any third file |
| FileSorting.LexicographicTransitive | Core/src/org/sleuthkit/autopsy/newpackage/FileSorter.java:46-48 | the chained comparison orders transitively |
| FileSorting.FileSorter.ChainedCompare | Core/src/org/sleuthkit/autopsy/newpackage/FileSorter.java:46-48 | the comparison the sorter is set up for: antisymmetric, and zero iff every comparator of the sorter ties the files |
| FileSorting.ChainedCompareIsConsistent | Core/src/org/sleuthkit/autopsy/newpackage/FileSorter.java:123-143 | with the default comparator last, the chain ties only files with equal names and ids, and orders transitively, so the sort order does not depend on the order the files were added |
| FileSorting.StubCompareTiesDistinctFiles | Core/src/org/sleuthkit/autopsy/newpackage/FileSorter.java:51-55 | as written, compare ties two files that differ in id, which the sorter's comparators order |

## Left out

- The thread that runs the task (`start`), the ingest lock, and the listener's threading. Both waits are synchronous calls. An interrupted wait (InterruptedException) is not modelled.
- The `Case` back end, `OutputGenerator`, `DataSourceProcessorUtility`, `IngestManager`, `IngestJobSettings`, `TimeStampUtils`, `CaseMetadata`, `Lookup` and `LifecycleManager`. They are not part of this model. Their answers are inputs (`Env`), and their effects are events.
- Where the metadata file goes. The model writes `Case.createAsCurrentCase`'s metadata file into the case folder as `<case name>.aut`. That file name is an assumption, since `Case` is not part of this model.
- Negative modification times. `Entry.lastModified` is a `nat`: times are milliseconds since 1970, and a file stamped before 1970 is not modelled. For such a file, the search as written could find a folder where the corrected search finds none.
- `Case.createCaseDirectory` adds the new folder to the base folder's listing, stamped with the clock. The model does not track later changes to that folder's modification time.
- A failing `Case.closeCurrentCase`. It only logs, so both close calls are plain events.
- `notifyAddingDataSource`, the task UUIDs and the inert progress monitor of runDataSourceProcessor.
- Logging, `System.out` and `System.err` text, and the severity choices of `logDataSourceProcessorResult`. These are side output.
- Path handling:
  - `Paths.get` is modelled as joining with "/". Relative paths are not resolved, and paths are not normalised.
  - `getAbsolutePath` is assumed to return the joined path.
- Platform reporting:
  - The entries of a listing come in whatever order the platform lists them.
  - `File.lastModified` reads 0 for a missing file.
- The command loop's `default: break` branch. The model's command type has only the four listed values, so that branch cannot be reached.
- JavaText.ToLowerCase: lower-cases ASCII letters only, because Unicode case mapping is not modelled. Characters are Unicode scalar values, not UTF-16 code units, so `String.compareTo` on supplementary characters is not modelled exactly.
- JavaText.ParseLong: accepts ASCII digits only. `Long.valueOf` also accepts other Unicode decimal digits.
- The ingest listener reacts to completed and cancelled events of any local ingest job, because it does not check the job. The model delivers to it all events seen during the wait. Whether child jobs are still running when the wait ends is not modelled.
- The snapshot's cancelled-module list is only logged. The model carries it but never inspects it.
- `ResultFile`, `FileType`, `Frequency` and `AbstractFile` are reduced to the attributes the comparators read.
- The source's integer widths. Long and int values are unbounded integers. Every comparator returns -1, 0 or 1 or a `compareTo` difference, so no overflow can occur.
- `CVTTopComponent` (a Swing user interface) and `TextClassifierUtils` (natural-language tokenising and floating-point scoring). Neither is part of this model.

Behaviour worth noting:

- **An empty processor list.** A comment in runDataSourceProcessor (CommandLineIngestManager.java:405-408) says this should never happen, but the code only logs it as SEVERE and returns, so `ADD_DATA_SOURCE` carries on.
- **An analysis failure in `RUN_INGEST`.** The arm's own catch clause does not list AnalysisStartupException. The exception therefore reaches the Throwable firewall, not the arm's handler.
- **A missing command input.** `Paths.get(null)` throws a NullPointerException, and `Long.valueOf(null)` throws a NumberFormatException. Neither is caught by an arm.

## Findings

| source | as written | input that shows it | evidently intended | confidence | as-written member | corrected member |
|---|---|---|---|---|---|---|
| Core/src/org/sleuthkit/autopsy/commandlineingest/CommandLineIngestManager.java:590-591 | `new File(candidateFolder)` reads each candidate's modification time relative to the working directory, not the search folder | base `/cases` holds `A_1` (modified at 200) and `A_2` (modified at 100), each with `A.aut`; the working directory `/home` holds neither; findCaseDirectory for "A" returns `/cases/A_2` | read each candidate inside the search folder and return the most recently modified one, `/cases/A_1` | medium; not executed | CaseFolders.CaseDirectoryAsWritten, CaseFolders.CaseDirectoryAsWrittenPicksOlderFolder | CaseFolders.CaseDirectory, CaseFolders.CaseDirectoryOverListing, CaseFolders.CaseDirectoryPicksNewerFolder |
| Core/src/org/sleuthkit/autopsy/newpackage/FileSorter.java:51-55 | `compare` returns 0 for every pair and ignores the comparators the constructor sets up | any sorter; two files equal except for ids 1 and 2 compare as 0 | apply the comparators in order, the first non-zero result deciding, which lines 46-48 say gives a consistent order | medium; not executed | FileSorting.FileSorter.Compare, FileSorting.StubCompareTiesDistinctFiles | FileSorting.FileSorter.ChainedCompare, FileSorting.ChainedCompareIsConsistent |

The pipeline uses the corrected `CaseDirectory`. `openCase` only tests whether findCaseDirectory's result is null. Modification times are non-negative, so both searches take the first candidate whose time is at least 0 and return null exactly when there is no candidate. `AsWrittenAgreesOnNullness` proves this, and `CreateCaseRefusesAsWritten` proves that CREATE_CASE refuses a name exactly when the search as written finds a folder.

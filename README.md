# ragctl batch history, retry and helpers — a Dafny model

ragctl is a command-line tool that chunks documents for retrieval-augmented
generation. This project models the part of it that records batch runs and
retries their failures, together with the helpers around a batch:

- **Pipeline history** (`Records`, `Status`, `RunIds`, `History`).
  - A `FileResult` holds one file's outcome. A `PipelineRun` holds one batch:
    its counters, mode, configuration and file results.
  - Both serialise to JSON dictionaries and back.
  - `HistoryManager` keeps one JSON record per run, keyed by a run id of the
    form `run_YYYYMMDD_HHMMSS`. It can create, save, fetch and list runs, and
    it finds the latest failed run and the files of a run that need a retry.
- **Per-file processing** (`Execution`).
  - Four failure modes: interactive, auto-continue, auto-stop and auto-skip.
  - `ExecuteRun` is the loop that processes the files one by one and updates
    the run's counters.
- **Retry** (`Retry`).
  - `RetryCommand` finds the run to retry: the one named, or the latest failed
    run.
  - It then applies the dry-run, missing-path and confirmation gates, and
    executes and saves a new run for the failed and skipped files.
- **Batch helpers** (`Paths`, `Glob`, `BatchHelpers`).
  - Files are discovered with a glob pattern, directly in a directory or
    recursively.
  - They are split into supported and unsupported extensions, case-blind.
  - They are then checked with a validator.
- **Processing summary** (`ChunkHelpers`). This is the JSON summary written
  after a document is chunked: document, configuration, processing stages,
  chunk statistics and metadata.
- **OCR settings** (`OcrSettings`). These are the Qwen-VL, Nougat and classic
  OCR settings, with their defaults and range checks.

The modules under test are not part of this model, so the behaviour is taken
from the repository's test files, cited below.

- The file system is a value. The history directory is a map from run id to
  JSON record. A directory tree is a `Node` value. The set of existing paths
  is a parameter.
- The clock is a `DateTime` parameter.
- Document processing and the user's answers at prompts are function
  parameters (`process`, `ask`). The answer to the retry confirmation is a
  boolean.
- `HistoryManager` is a class because the history is state that `SaveRun`
  changes. Its ghost `Runs` map is the decoded view of the stored records.
- The other operations are pure and are modelled as functions.

## Model

| member | source | states |
|---|---|---|
| Records.NewFileResult | tests/unit/test_pipeline_history.py:30-46 | a new file result keeps name, path and status and starts with zero retries, zero chunks, no error or reason and empty metadata |
| Records.PipelineRun.SuccessRate | tests/unit/test_pipeline_history.py:168-190 | the rate lies in [0, 1]; it is 0.0 when nothing was processed, otherwise rate × processed = success; it is 1.0 exactly when every processed file succeeded |
| Records.NewPipelineRun | tests/unit/test_pipeline_history.py:133-151 | a new run keeps id, timestamp, status and total, and has processed 0, success rate 0.0, no files, empty config and the default mode |
| Records.CountStatus | tests/unit/test_pipeline_history.py:192-219 | the number of files with a given status is at most the number of files |
| Records.CountStatusAppend | tests/unit/test_pipeline_history.py:192-219 | appending one file adds one to the count of its own status only |
| Records.CountStatusPartition | tests/unit/test_pipeline_history.py:153-166 | the four status counts of a file list add up to its length, so every file has exactly one status |
| Records.CountStatusConcat | tests/unit/test_pipeline_history.py:192-219 | status counts add over concatenation |
| Records.CountStatusUniform | tests/unit/test_pipeline_history.py:192-219 | in a list whose files all have one status, that count is the length and every other count is 0 |
| Records.CountStatusZero | tests/unit/test_pipeline_history.py:192-219 | a status count is 0 exactly when no file has that status |
| Records.PipelineRun.Processed | tests/unit/test_pipeline_history.py:153-166 | processed is success + failed + skipped + aborted; when those counters agree with the file list, it equals the number of recorded files |
| Records.FileResultToDict | tests/unit/test_pipeline_history.py:64-78 | the dictionary holds the status as its lower-case token, the filename and chunks_created |
| Records.FilesToJson | tests/unit/test_pipeline_history.py:221-236 | one JSON item per file result |
| Records.PipelineRunToDict | tests/unit/test_pipeline_history.py:221-236 | the dictionary holds run_id, total_files and the status as its lower-case token |
| Records.FileResultFromDict | tests/unit/test_pipeline_history.py:80-96 | a decoded file result has the status and filename the dictionary names |
| Records.FilesFromJson | tests/unit/test_pipeline_history.py:238-259 | a decoded list has one file result per item |
| Records.PipelineRunFromDict | tests/unit/test_pipeline_history.py:238-259 | a decoded run has the run_id and status the dictionary names |
| Records.FileResultRoundTrip | tests/unit/test_pipeline_history.py:98-127 | from_dict(to_dict(f)) == f for every file result, error, reason and metadata included |
| Records.FilesRoundTrip | tests/unit/test_pipeline_history.py:261-287 | a list of file results survives encoding and decoding unchanged |
| Records.HeaderRoundTrip | tests/unit/test_pipeline_history.py:221-259 | id, timestamp, status and total decode back from a run's dictionary |
| Records.CountersRoundTrip | tests/unit/test_pipeline_history.py:221-259 | the four counters and the duration decode back from a run's dictionary |
| Records.BodyRoundTrip | tests/unit/test_pipeline_history.py:261-287 | mode, config and file list decode back from a run's dictionary |
| Records.PipelineRunRoundTrip | tests/unit/test_pipeline_history.py:261-287 | from_dict(to_dict(run)) == run for every pipeline run |
| Status.FileStatusToString | tests/unit/test_pipeline_history.py:64-78 | a file status serialises as a non-empty lower-case token |
| Status.FileStatusFromString | tests/unit/test_pipeline_history.py:80-96 | a token decodes to the status that prints as it; the four known tokens are the only ones that decode |
| Status.PipelineStatusToString | tests/unit/test_pipeline_history.py:221-236 | a pipeline status serialises as a non-empty lower-case token |
| Status.PipelineStatusFromString | tests/unit/test_pipeline_history.py:238-259 | a token decodes to the status that prints as it; the five known tokens are the only ones that decode |
| Status.StatusTokensRoundTrip | tests/unit/test_pipeline_history.py:98-115 | every file status and pipeline status decodes back from its token |
| Strings.LexLessIrreflexive | tests/unit/test_pipeline_history.py:488-507 | the string order that sorts run ids is irreflexive |
| Strings.LexLessAsymmetric | tests/unit/test_pipeline_history.py:488-507 | the order is asymmetric |
| Strings.LexLessTransitive | tests/unit/test_pipeline_history.py:488-507 | the order is transitive |
| Strings.LexLessTotal | tests/unit/test_pipeline_history.py:488-507 | any two distinct strings are ordered one way or the other |
| Strings.LexLessAppend | tests/unit/test_pipeline_history.py:488-507 | a strict order between equal-length prefixes survives appending anything |
| Strings.LexLessPrefix | tests/unit/test_pipeline_history.py:488-507 | a common prefix does not change the order of the tails |
| Strings.Pad | tests/unit/test_pipeline_history.py:319-326 | a zero-padded number has exactly the requested width and only digits |
| Strings.PadValue | tests/unit/test_pipeline_history.py:319-326 | the padded digits read back as the number |
| Strings.PadInjective | tests/unit/test_pipeline_history.py:488-507 | distinct numbers that fit the width pad to distinct strings |
| Strings.PadMonotonic | tests/unit/test_pipeline_history.py:488-507 | for numbers that fit the width, numeric order is string order of their padded forms |
| RunIds.DateDigits | tests/unit/test_pipeline_history.py:319-326 | the date part of a run id has 8 characters |
| RunIds.TimeDigits | tests/unit/test_pipeline_history.py:319-326 | the time part of a run id has 6 characters |
| RunIds.GenerateRunId | tests/unit/test_pipeline_history.py:319-326 | a run id is 19 characters long and starts with "run_" |
| RunIds.IsoTimestamp | tests/unit/test_pipeline_history.py:319-326 | the timestamp has the ISO shape YYYY-MM-DDTHH:MM:SS (plus .ffffff when there are microseconds) |
| RunIds.RunIdInjective | tests/unit/test_pipeline_history.py:488-507 | two instants give the same run id only in the same second |
| RunIds.RunIdFields | tests/unit/test_pipeline_history.py:319-326 | characters 4-7 of a run id are the padded year, then month and day, and after the underscore the padded hour, minute and second |
| RunIds.ThreeFieldsOrder | tests/unit/test_pipeline_history.py:488-507 | three padded fields compare like the tuple of their values |
| RunIds.RunIdOrderByDate | tests/unit/test_pipeline_history.py:488-507 | a run started on an earlier date has a smaller run id |
| RunIds.RunIdOrderByTime | tests/unit/test_pipeline_history.py:488-507 | on the same date, a run started at an earlier second has a smaller run id |
| RunIds.RunIdMonotonic | tests/unit/test_pipeline_history.py:488-507 | an earlier second always gives a smaller run id, so sorting by id is sorting by start time |
| History.RetryCandidates | tests/unit/test_pipeline_history.py:406-440 | the files to retry are exactly the failed and skipped ones of the run, in order |
| History.RetryCandidatesAppend | tests/unit/test_pipeline_history.py:406-440 | selecting candidates distributes over concatenation, so their order is the run's order |
| History.RetryCandidatesCount | tests/unit/test_pipeline_history.py:406-440 | the number of candidates is failed + skipped |
| History.InsertSorted | tests/unit/test_pipeline_history.py:358-375 | inserting a new id into a strictly sorted id list keeps it strictly sorted and adds exactly that id |
| History.FiledUpdate | tests/unit/test_pipeline_history.py:328-351 | storing a run's dictionary under its id keeps every stored record decoding to its run |
| History.HistoryManager.constructor | tests/unit/test_pipeline_history.py:304-317 | a new manager has the given directory and no runs |
| History.HistoryManager.GetRun | tests/unit/test_pipeline_history.py:377-404 | the run stored under the id, or None when there is none |
| History.HistoryManager.CreateRun | tests/unit/test_pipeline_history.py:319-326 | a new run has the run id and ISO timestamp of the given instant, status initializing, the given total, mode and config, and no files |
| History.HistoryManager.SaveRun | tests/unit/test_pipeline_history.py:328-351 | the record under the run id is replaced by the run's dictionary, nothing else changes, and get_run then returns the run |
| History.HistoryManager.Load | tests/unit/test_pipeline_history.py:377-399 | loading a stored id yields the stored run |
| History.HistoryManager.SortedRunIds | tests/unit/test_pipeline_history.py:358-375 | the stored ids, each once, in strictly ascending order |
| History.HistoryManager.ListRuns | tests/unit/test_pipeline_history.py:353-375 | every stored run exactly once, ascending by run id, which is chronological order (empty when nothing is stored) |
| History.HistoryManager.LoadAll | tests/unit/test_pipeline_history.py:452-507 | the runs stored under the given ids, in the given order |
| History.HasFailures | tests/unit/cli/test_retry_commands.py:33-70 | when its counters follow its file list, a run has failures exactly when its status is FAILED or one of its files is FAILED |
| History.HistoryManager.GetLastFailedRun | tests/unit/cli/test_retry_commands.py:33-70 | None exactly when no stored run has failures; otherwise a stored run with failures whose id is the greatest among such runs |
| History.HistoryManager.GetFailedFiles | tests/unit/test_pipeline_history.py:406-440 | the failed and skipped files of the stored run, or nothing when the run does not exist |
| Execution.ModeName | tests/unit/cli/test_retry_commands.py:257-316 | every mode has a non-empty name |
| Execution.ParseMode | tests/unit/cli/test_retry_commands.py:257-316 | a name parses to the mode that prints as it, and to nothing when no mode has that name |
| Execution.ModeNamesDistinct | tests/unit/cli/test_retry_commands.py:257-316 | mode names are distinct, and every mode parses back from its name |
| Execution.FlagsFor | tests/unit/cli/test_retry_commands.py:257-316 | the manager's auto_continue, auto_stop and auto_skip flags: each is set exactly in its own mode, and none is set in interactive mode |
| Execution.OnFailure | tests/unit/cli/test_retry_commands.py:257-316 | after a failure, auto-skip marks the file skipped and every other mode marks it failed; auto-stop or an interactive "stop" aborts the rest; an interactive "skip" skips the rest |
| Execution.FlagsSelectPolicy | tests/unit/cli/test_retry_commands.py:257-316 | the manager flag set by a mode selects its policy: auto_continue marks the failure FAILED and goes on, auto_stop marks it FAILED and aborts the rest, auto_skip marks it SKIPPED and goes on, no flag means the interactive prompt decides; and the mode "auto-continue" sets auto_continue |
| Execution.AttemptRecord | tests/unit/cli/test_retry_commands.py:257-316 | the record keeps the item's name, path and retries; it carries chunks and metadata on success, and the error message and type with zero chunks on failure |
| Execution.UntouchedRecord | tests/unit/cli/test_batch_commands.py:142-158 | a file after an abort is marked aborted, and after skip-rest is marked skipped, with a reason and zero chunks |
| Execution.Attempt | tests/unit/cli/test_retry_commands.py:257-316 | a file is recorded as a success exactly when processing succeeded, and then processing goes on; a failure follows the mode's failure policy |
| Execution.ProcessItem | tests/unit/cli/test_retry_commands.py:257-316 | one iteration of the run loop produces exactly the record and the next halt state that the specification of a run prescribes for that item |
| Execution.Results | tests/unit/cli/test_retry_commands.py:257-316 | a run over the items yields exactly one record per item |
| Execution.ResultsStep | tests/unit/cli/test_retry_commands.py:257-316 | the result list of a suffix is the step for its first item followed by the results of the rest |
| Execution.ResultsFollowItems | tests/unit/cli/test_retry_commands.py:257-316 | one record per item, with the same name, path and retries |
| Execution.SuccessMeansProcessed | tests/unit/cli/test_retry_commands.py:257-316 | a record says success only if processing that file succeeded |
| Execution.ResultsAfterHalt | tests/unit/cli/test_batch_commands.py:142-158 | once the rest is aborted or skipped, every remaining file gets the untouched record |
| Execution.UnattendedResults | tests/unit/cli/test_retry_commands.py:257-316 | under auto-continue and auto-skip, every file is processed and its status depends only on its own outcome |
| Execution.AutoContinueTally | tests/unit/cli/test_retry_commands.py:257-316 | under auto-continue, nothing is skipped or aborted, success + failed is the number of files, and the run ends done exactly when every file was processed |
| Execution.AutoSkipTally | tests/unit/cli/test_batch_commands.py:142-158 | under auto-skip, nothing is failed or aborted, so the run ends done |
| Execution.AutoStopResults | tests/unit/cli/test_batch_commands.py:142-158 | under auto-stop, the files before the first failure succeed, that file fails, and every later file is aborted |
| Execution.AutoStopTally | tests/unit/cli/test_batch_commands.py:142-158 | under auto-stop with a first failure at k: k successes, 1 failure, the rest aborted, none skipped |
| Execution.TallyAround | tests/unit/cli/test_batch_commands.py:142-158 | the status counts of successes, then one failure, then aborted files |
| Execution.AlwaysContinueIsAutoContinue | tests/unit/cli/test_retry_commands.py:257-316 | interactive mode where the user always answers "continue" gives the same records as auto-continue |
| Execution.AlwaysStopIsAutoStop | tests/unit/cli/test_batch_commands.py:142-158 | interactive mode where the user always answers "stop" gives the same records as auto-stop |
| Execution.FinalStatus | tests/unit/cli/test_retry_commands.py:257-316 | a finished run is done exactly when nothing failed or was aborted, aborted exactly when something was aborted, otherwise failed |
| Execution.Record | tests/unit/test_pipeline_history.py:192-219 | recording a file appends it, raises processed by one, keeps the counters in step with the files and changes nothing else |
| Execution.ExecuteRun | tests/unit/cli/test_retry_commands.py:257-316 | the run's files are the per-item results under the mode, its counters match them, processed equals the number of items, its final status follows from failed and aborted, its duration is the elapsed time, and the identity, mode and config are kept |
| Retry.ExitCode | tests/unit/cli/test_retry_commands.py:73-109 | the exit code is 1 exactly for no failed run outside show mode, an unknown run id and no retryable path; otherwise it is 0, so show mode with no failed run exits gracefully |
| Retry.Gate | tests/unit/cli/test_retry_commands.py:117-247 | in order: no candidates means nothing to retry; show lists the candidates; no existing path is an error; a declined prompt without --yes cancels; otherwise proceed (each case an if-and-only-if) |
| Retry.DryRunIgnoresPromptAndDisk | tests/cli/test_retry.py:90-115 | show mode lists the candidates whatever the prompt answer, the --yes flag and the disk say |
| Retry.RetryConfig | tests/unit/cli/test_retry_commands.py:257-316 | the retry run's config has the source config, overridden by the new options, plus retry_of naming the source run, and no other keys |
| Retry.RetryItems | tests/unit/cli/test_retry_commands.py:323-362 | one work item per failed or skipped file, same name and path, with one more retry |
| Retry.Guarded | tests/unit/cli/test_retry_commands.py:175-203 | an existing path is processed as usual; a missing one fails with a file-not-found error |
| Retry.MissingNeverSucceeds | tests/unit/cli/test_retry_commands.py:175-203 | in every mode, a file whose path is missing is never recorded as a success |
| Retry.MissingCountsAsFailed | tests/unit/cli/test_retry_commands.py:257-316 | under auto-continue, a file succeeds exactly when its path exists and processing succeeds, and fails otherwise |
| Retry.RetryCommand | tests/cli/test_retry.py:20-88 | the source run is the named run or the latest failed run; the outcome follows the gates; a completed retry is a fresh run over the candidates, executed under the mode and saved under its new id; nothing is saved otherwise |
| Paths.LastIndexOf | tests/unit/cli/test_batch_helpers.py:145-159 | the last position of the character, or None when it does not occur |
| Paths.Name | tests/unit/cli/test_batch_helpers.py:17-69 | the final component of a path: a tail without separators, the whole path when there is no separator |
| Paths.Parent | tests/unit/cli/test_batch_helpers.py:17-69 | the path is its parent, a separator and its name; "" when there is no separator |
| Paths.JoinSplits | tests/unit/cli/test_batch_helpers.py:17-53 | joining a directory and a separator-free name splits back into the same parent and name |
| Paths.Suffix | tests/unit/cli/test_batch_helpers.py:91-111 | the suffix is empty or a dotted tail of the name: shorter than the name, with no further dot |
| Paths.SuffixOfStem | tests/unit/cli/test_batch_helpers.py:91-111 | a non-empty stem followed by a dotted extension has exactly that extension as its suffix |
| Paths.LowerChar | tests/unit/cli/test_batch_helpers.py:145-159 | ASCII upper-case letters become lower case; every other character is unchanged |
| Paths.Lower | tests/unit/cli/test_batch_helpers.py:145-159 | lower-casing keeps the length and maps each character |
| Paths.LastIndexOfLower | tests/unit/cli/test_batch_helpers.py:145-159 | lower-casing does not move the last dot |
| Paths.SuffixLower | tests/unit/cli/test_batch_helpers.py:145-159 | the suffix of the lowered name is the lowered suffix |
| Glob.Match | tests/unit/cli/test_batch_helpers.py:54-69 | a pattern without `*` matches only names of its own length, and `*` alone matches every name |
| Glob.MatchLiteral | tests/unit/cli/test_batch_helpers.py:54-69 | a pattern without wildcards matches exactly itself |
| Glob.MatchStarLiteral | tests/unit/cli/test_batch_helpers.py:54-69 | `*<lit>` matches exactly the names ending with lit |
| BatchHelpers.Extension | tests/unit/cli/test_batch_helpers.py:145-159 | a file's extension is "" or a dot followed by at least one character, with no upper-case letters |
| BatchHelpers.ExtensionIgnoresCase | tests/unit/cli/test_batch_helpers.py:145-159 | a path and its lower-cased form have the same extension, so support does not depend on case |
| BatchHelpers.ExtensionOfName | tests/unit/cli/test_batch_helpers.py:75-111 | a file named stem + ext, with a non-empty stem and a single-dot extension ext, has the lowered ext as its extension (so its classification depends on the lowered ext alone) |
| BatchHelpers.FileCount | tests/unit/cli/test_batch_helpers.py:128-143 | the number of non-directory entries: at most the number of entries, 0 for a listing of directories only, and every entry for a listing of files only |
| BatchHelpers.SupportedPaths | tests/unit/cli/test_batch_helpers.py:75-111 | a path is kept exactly when it is a file entry with a supported extension |
| BatchHelpers.UnsupportedPaths | tests/unit/cli/test_batch_helpers.py:91-127 | a path is listed exactly when it is a file entry with an unsupported extension |
| BatchHelpers.UnsupportedPairs | tests/unit/cli/test_batch_helpers.py:91-127 | a (name, extension) pair is reported exactly for each file entry with an unsupported extension |
| BatchHelpers.FilterSupportedFiles | tests/unit/cli/test_batch_helpers.py:75-159 | the supported paths (exactly the supported file entries) and the unsupported pairs (exactly one pair per unsupported file entry) |
| BatchHelpers.FilterPartitions | tests/unit/cli/test_batch_helpers.py:91-127 | every file is in exactly one of the two lists: their lengths add up to the number of files |
| BatchHelpers.SupportedPathsAppend | tests/unit/cli/test_batch_helpers.py:91-111 | supported-path selection distributes over concatenation, so input order is kept |
| BatchHelpers.UnsupportedPathsAppend | tests/unit/cli/test_batch_helpers.py:91-127 | unsupported-path selection distributes over concatenation |
| BatchHelpers.UnsupportedPairsAppend | tests/unit/cli/test_batch_helpers.py:91-127 | unsupported-pair selection distributes over concatenation, so input order is kept |
| BatchHelpers.FilterSupportedAppend | tests/unit/cli/test_batch_helpers.py:91-111 | filtering a concatenation is the concatenation of the filtered halves |
| BatchHelpers.FilterDropsDirectories | tests/unit/cli/test_batch_helpers.py:128-143 | a listing of directories only yields two empty lists |
| BatchHelpers.ValidateFilesForBatch | tests/unit/cli/test_batch_helpers.py:165-227 | the valid files are exactly the input files the validator accepts, never more than the input; an empty list gives an empty list |
| BatchHelpers.ValidateAppend | tests/unit/cli/test_batch_helpers.py:165-227 | validation distributes over concatenation, so input order is kept |
| BatchHelpers.ValidateKeepsAll | tests/unit/cli/test_batch_helpers.py:165-178 | the valid list is the whole input, in order, exactly when the validator accepts every file |
| BatchHelpers.DirectFiles | tests/unit/cli/test_batch_helpers.py:17-33 | at most one direct file per child of the directory |
| BatchHelpers.Matching | tests/unit/cli/test_batch_helpers.py:54-69 | a path is kept exactly when its name matches the pattern |
| BatchHelpers.MatchingAppend | tests/unit/cli/test_batch_helpers.py:35-53 | pattern filtering distributes over concatenation |
| BatchHelpers.DiscoverFiles | tests/unit/cli/test_batch_helpers.py:17-53 | the matching direct files always come first in the result; without recursion there is at most one result per child |
| BatchHelpers.DirectMatchesSpec | tests/unit/cli/test_batch_helpers.py:17-33 | the direct matches are the direct files filtered by the pattern, each with the directory as its parent |
| BatchHelpers.DiscoverDirect | tests/unit/cli/test_batch_helpers.py:17-33 | without recursion, discovery returns the matching direct files, each with the directory as its parent |
| BatchHelpers.DiscoverRecursive | tests/unit/cli/test_batch_helpers.py:35-53 | with recursion, discovery returns the matching files of the whole tree, in the walk order: a directory's own files first, then each subdirectory's files |
| BatchHelpers.SubtreeMatchesSpec | tests/unit/cli/test_batch_helpers.py:35-53 | the matches below the subdirectories are the subdirectories' files filtered by the pattern |
| BatchHelpers.DirectFilesAmongAll | tests/unit/cli/test_batch_helpers.py:35-53 | the direct files are a prefix of the files of the whole tree, so each is among them |
| BatchHelpers.RecursiveFindsMore | tests/unit/cli/test_batch_helpers.py:35-53 | the files found without recursion are a prefix of those found with it, so each is also found with it |
| BatchHelpers.RglobOrderExample | tests/unit/cli/test_batch_helpers.py:35-53 | with files a.txt, sub/c.txt and b.txt under d, recursive `*.txt` discovery gives d/a.txt, d/b.txt, then d/sub/c.txt |
| BatchHelpers.StarExtensionSuffix | tests/unit/cli/test_batch_helpers.py:54-62 | a name that matches `*<ext>` is the extension itself or has ext as its suffix |
| BatchHelpers.DiscoveredSuffix | tests/unit/cli/test_batch_helpers.py:54-62 | with pattern `*<ext>`, every discovered file is named ext or has suffix ext |
| ChunkHelpers.Lengths | tests/unit/cli/test_chunk_helpers.py:162-201 | one length per chunk, each the length of its chunk |
| ChunkHelpers.Smallest | tests/unit/cli/test_chunk_helpers.py:162-201 | the minimum is one of the sizes and no size is smaller |
| ChunkHelpers.Largest | tests/unit/cli/test_chunk_helpers.py:162-201 | the maximum is one of the sizes and no size is larger |
| ChunkHelpers.SizeStatistics | tests/unit/cli/test_chunk_helpers.py:162-229 | all zeros for no chunks; otherwise the count, the smallest and largest size, the total, and the floor of the mean |
| ChunkHelpers.FloorMean | tests/unit/cli/test_chunk_helpers.py:162-201 | the floor of total / count: its multiple of count is at most the total, and the next multiple is above it |
| ChunkHelpers.ChunkStatistics | tests/unit/cli/test_chunk_helpers.py:162-229 | the count is the number of chunks and the total their summed length; all zeros for no chunks; otherwise the minimum and maximum are sizes of actual chunks bounding every size, and the average is the floor of total / count |
| ChunkHelpers.TotalBounds | tests/unit/cli/test_chunk_helpers.py:162-201 | count × min ≤ total ≤ count × max |
| ChunkHelpers.FloorMeanBetween | tests/unit/cli/test_chunk_helpers.py:162-201 | the floor of total / count lies between min and max |
| ChunkHelpers.AverageBetweenExtremes | tests/unit/cli/test_chunk_helpers.py:162-201 | the reported average size lies between the smallest and the largest chunk |
| ChunkHelpers.StatisticsExample | tests/unit/cli/test_chunk_helpers.py:162-201 | chunks of 50, 100 and 200 characters give count 3, min 50, max 200, total 350, average 116 |
| ChunkHelpers.Strings | tests/unit/cli/test_chunk_helpers.py:17-62 | a list of strings becomes a JSON array of the same length |
| ChunkHelpers.LlmSection | tests/unit/cli/test_chunk_helpers.py:92-119 | the LLM section always holds "enabled", and holds the provider and model exactly when the LLM is enabled |
| ChunkHelpers.Stages | tests/unit/cli/test_chunk_helpers.py:121-160 | each stage key (ocr, chunking, strategy_selection) is present exactly when its data is given, and carries that data: the OCR engine, success flag and time, the chunking time, the strategy selection |
| ChunkHelpers.GenerateProcessingSummary | tests/unit/cli/test_chunk_helpers.py:17-62 | the summary has exactly the keys metadata, document, configuration, processing and results |
| ChunkHelpers.SummaryMetadata | tests/unit/cli/test_chunk_helpers.py:17-62 | the metadata reports the success flag and the errors as given, and the summary version "1.0.0" |
| ChunkHelpers.SummaryDefaults | tests/unit/cli/test_chunk_helpers.py:17-62 | by default the summary reports success with an empty error list |
| ChunkHelpers.SummaryDocument | tests/unit/cli/test_chunk_helpers.py:17-62 | the document section names the file and gives its suffix as the format |
| ChunkHelpers.SummarySections | tests/unit/cli/test_chunk_helpers.py:92-160 | the configuration and stages sections are the ones built from the config and the processing data |
| ChunkHelpers.SummaryChunkCounts | tests/unit/cli/test_chunk_helpers.py:162-229 | the reported chunk count is the number of chunks; with no chunks the minimum, maximum and average sizes are 0 |
| ChunkHelpers.SummaryChunkStatistics | tests/unit/cli/test_chunk_helpers.py:162-201 | the summary's min_size_chars, max_size_chars and average_size_chars are those of ChunkStatistics, and total_text_length is the summed chunk length |
| OcrSettings.QwenVLViolations | tests/unit/test_ocr_settings.py:59-82 | a field is reported exactly when it is out of range: timeout 10..600, retries 0..10, delay 0.1..30.0, temperature 0.0..2.0 |
| OcrSettings.NewQwenVL | tests/unit/test_ocr_settings.py:27-82 | the settings are accepted unchanged exactly when every field is in range, otherwise rejected with the fields at fault |
| OcrSettings.NougatViolations | tests/unit/test_ocr_settings.py:133-166 | a field is reported exactly when it is invalid: device auto/cpu/cuda/mps, batch 1..32, beam 1..10, dpi 72..600 |
| OcrSettings.NewNougat | tests/unit/test_ocr_settings.py:101-166 | the settings are accepted unchanged exactly when every field is valid, otherwise rejected with the fields at fault |
| OcrSettings.ClassicOcrViolations | tests/unit/test_ocr_settings.py:208-231 | a field is reported exactly when it is invalid: engine unstructured/tesseract/doctr/pdfminer, PSM 0..13 |
| OcrSettings.NewClassicOcr | tests/unit/test_ocr_settings.py:185-231 | the settings are accepted unchanged exactly when both fields are valid, otherwise rejected with the fields at fault |
| OcrSettings.DefaultsAccepted | tests/unit/test_ocr_settings.py:258-267 | the defaults of all three engines are valid, and every engine is enabled by default |
| OcrSettings.QwenVLBoundaries | tests/unit/test_ocr_settings.py:286-310 | both ends of every Qwen-VL range are accepted, and one step past either end of the timeout and retry ranges is rejected |

## Left out

- Reading and writing JSON files, and creating the history directory. The
  history is a map from run id to JSON record.
- Two runs created in the same second get the same run id and the later save
  overwrites the earlier. `RunIds.RunIdInjective` states exactly when ids
  collide.
- Console output: messages, tables, colours and progress bars.
- The retry command's `--output` directory. It only changes where chunks are
  written, and chunk output is not modelled.
- Loading settings from environment variables. The `OcrSettings` functions
  take field values directly.
- The number of times the validator is called in `validate_files_for_batch`.
- `load_document_universal` and `display_routing_decisions`. They read files
  and print; they are not part of this model.
- Document processing itself (chunking, OCR and LLM calls). It is the
  `process` parameter.
- Glob character classes (`[...]`) and `**`. Only `*`, `?` and literal
  characters are modelled.
- Path normalisation. A path is its string, with `/` as the only separator.
- Unicode case folding. Only ASCII letters are lowered when extensions are
  compared.
- Settings independence: the settings are immutable values, so changing one
  engine's settings cannot affect another's.
- Execution.Results: the interactive prompt's answer is a function of the
  file path only, not of earlier answers.
- OcrSettings.NewNougat: the Nougat timeout has no range constraint, because
  none is stated for it.
- ChunkHelpers.GenerateProcessingSummary: its own contract states only the
  key set. The contents of each section are stated by the Summary* lemmas
  beside it.
- Records.PipelineRun.SuccessRate: the rate, the duration and the OCR
  ranges are exact reals, not IEEE doubles. So rate × processed = success
  holds exactly here, while in doubles it can be off in the last bit
  (1/49 × 49 is not 1.0).
- History.HistoryManager.constructor: the directory is always given; the
  default history directory of `HistoryManager()` is not modelled.
- History.HistoryManager.CreateRun: the configuration is always given; a
  run created without one is the case of an empty map.
- ChunkHelpers.SummaryMetadata: besides the success flag, the errors and the
  version, the metadata section holds no generation timestamp, because that
  needs the clock.

## Design choices

- **Missing paths.** A candidate whose path is empty or absent from the
  existing paths is not silently dropped. It goes through processing as a
  file-not-found failure, recorded under the mode's failure policy. Only when
  none of the candidates exists does the command stop with exit code 1 before
  creating a run.
- **Order of the gates.** The show check comes before the missing-path check,
  so a dry run lists the candidates whatever is on disk.
- **Retry run.**
  - Its config is the source run's config, then the new options, then
    `retry_of` naming the source run.
  - Each retried file's retry count is one more than in the source run.
- **Latest failed run.** This is the run with the greatest id among the runs
  with failed files or a failed status. Ids sort chronologically.
- **Discovery.** It returns files only, never directories. Recursive
  discovery lists a directory's own files first, then each subdirectory's
  files in turn.
  A name that is nothing but an extension (such as `.txt`) has no suffix, as
  for hidden files.
- **Unsupported pairs.** They report the lower-cased extension.
- **No failed run in show mode.** Only the exit code of the non-show case
  is pinned (1, tests/cli/test_retry.py:20-28). The show case "exits
  gracefully" (tests/unit/cli/test_retry_commands.py:73-82) without an
  error, which the model reads as exit code 0.
- **Summary details.** An OCR stage given without a time reports
  `time_seconds` 0.0, and the document section also holds the `path` it
  was given. The tests pin neither; both are this model's choice.
- **Failure policies.** The tests assert only the auto-continue policy and
  the mode names "auto-continue" and "interactive"
  (tests/unit/cli/test_retry_commands.py:46, :268, :309), and that the
  batch command has auto_continue, auto_stop and auto_skip flags
  (tests/unit/cli/test_batch_commands.py:142-158). The auto-stop, auto-skip
  and interactive policies are this model's reading of the mode names, not
  behaviour the tests assert.
- **Supported extensions.** `SupportedExtensions` holds the extensions the
  tests name as supported (tests/unit/cli/test_batch_helpers.py:233-244);
  the program's own list may be longer.

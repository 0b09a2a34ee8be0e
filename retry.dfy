/**
 * The `retry` command: resolve the run to retry (an explicit id, or the
 * most recent run with failures), collect its FAILED and SKIPPED files,
 * pass the dry-run, missing-file and confirmation gates, then reprocess
 * the files on a brand-new run that records where it came from.
 */
module Retry {
  import opened Wrappers
  import opened JsonValues
  import opened Status
  import opened Records
  import opened Strings
  import opened RunIds
  import opened History
  import opened Execution

  /** How a retry ends; each case carries what the command reports. */
  datatype RetryOutcome =
    | NoFailedRuns(show: bool)
    | RunNotFound(runId: string)
    | NoFailedFiles(runId: string)
    | DryRun(runId: string, files: seq<FileResult>)
    | MissingPaths(runId: string, files: seq<FileResult>)
    | Cancelled(runId: string)
    | Completed(run: PipelineRun)

  /**
   * The process exit code: 1 when the command could not work out what to
   * retry (no failed run outside show mode, unknown id, no file left on
   * disk), 0 otherwise: a show-mode run that finds no failed run exits
   * gracefully, and a completed run that still has failures succeeds.
   */
  function ExitCode(o: RetryOutcome): (code: int)
    ensures code == 0 || code == 1
    ensures code == 1 <==> (o.NoFailedRuns? && !o.show) || o.RunNotFound? || o.MissingPaths?
  {
    match o
    case NoFailedRuns(show) => if show then 0 else 1
    case RunNotFound(_) => 1
    case MissingPaths(_, _) => 1
    case NoFailedFiles(_) => 0
    case DryRun(_, _) => 0
    case Cancelled(_) => 0
    case Completed(_) => 0
  }

  /** The configuration key that links a retry run to the run it retries. */
  const RetryOfKey: string := "retry_of"
  const MissingFileMessage: string := "file not found"
  const MissingFileKind: string := "FileNotFoundError"

  /** A recorded path that still names an existing, readable file; `existing` stands for the file system. */
  predicate Available(path: string, existing: set<string>)
  {
    path != "" && path in existing
  }

  /**
   * The gates between the candidate files and execution, in the order the
   * command applies them; `None` means "go ahead". `confirmed` stands for
   * the answer to the confirmation prompt, which `yes` bypasses.
   */
  function Gate(source: PipelineRun, candidates: seq<FileResult>, show: bool, yes: bool, confirmed: bool,
                existing: set<string>): (g: Option<RetryOutcome>)
    ensures candidates == [] ==> g == Some(NoFailedFiles(source.runId))
    ensures candidates != [] && show ==> g == Some(DryRun(source.runId, candidates))
    ensures g.None? <==> && candidates != [] && !show && (yes || confirmed)
                         && exists i :: 0 <= i < |candidates| && Available(candidates[i].filepath, existing)
    ensures g == Some(MissingPaths(source.runId, candidates)) <==>
              && candidates != [] && !show
              && forall i :: 0 <= i < |candidates| ==> !Available(candidates[i].filepath, existing)
    ensures g == Some(Cancelled(source.runId)) <==>
              && candidates != [] && !show && !yes && !confirmed
              && exists i :: 0 <= i < |candidates| && Available(candidates[i].filepath, existing)
  {
    if candidates == [] then Some(NoFailedFiles(source.runId))
    else if show then Some(DryRun(source.runId, candidates))
    else if forall i :: 0 <= i < |candidates| ==> !Available(candidates[i].filepath, existing) then
      Some(MissingPaths(source.runId, candidates))
    else if !yes && !confirmed then Some(Cancelled(source.runId))
    else None
  }

  /**
   * A dry run depends on neither the confirmation answer nor the file
   * system: it lists the candidates even when none of them exists.
   */
  lemma {:induction false} DryRunIgnoresPromptAndDisk(source: PipelineRun, candidates: seq<FileResult>,
                                                      yes: bool, yes': bool, confirmed: bool, confirmed': bool,
                                                      existing: set<string>, existing': set<string>)
    requires candidates != []
    ensures Gate(source, candidates, true, yes, confirmed, existing)
         == Gate(source, candidates, true, yes', confirmed', existing')
         == Some(DryRun(source.runId, candidates))
  {
  }

  /** The configuration of a retry run: the source run's, overridden by `overrides`, linked back to the source. */
  function RetryConfig(source: PipelineRun, overrides: map<string, Json>): (c: map<string, Json>)
    ensures RetryOfKey in c && c[RetryOfKey] == JStr(source.runId)
    ensures forall k :: k in overrides && k != RetryOfKey ==> k in c && c[k] == overrides[k]
    ensures forall k :: k in source.config && k !in overrides && k != RetryOfKey ==> k in c && c[k] == source.config[k]
    ensures c.Keys == source.config.Keys + overrides.Keys + {RetryOfKey}
  {
    (source.config + overrides)[RetryOfKey := JStr(source.runId)]
  }

  /** The work items of a retry: the candidates in order, each one retry further along. */
  function RetryItems(candidates: seq<FileResult>): (items: seq<WorkItem>)
    ensures |items| == |candidates|
    ensures forall i :: 0 <= i < |candidates| ==>
      items[i] == WorkItem(candidates[i].filename, candidates[i].filepath, candidates[i].retries + 1)
  {
    seq(|candidates|, i requires 0 <= i < |candidates| =>
      WorkItem(candidates[i].filename, candidates[i].filepath, candidates[i].retries + 1))
  }

  /** The processor as a retry sees it: a file that has gone missing fails without being processed. */
  function Guarded(process: string -> Outcome, existing: set<string>): (g: string -> Outcome)
    ensures forall p :: Available(p, existing) ==> g(p) == process(p)
    ensures forall p :: !Available(p, existing) ==> g(p) == ProcessingError(MissingFileMessage, MissingFileKind)
  {
    p => if Available(p, existing) then process(p) else ProcessingError(MissingFileMessage, MissingFileKind)
  }

  /** A candidate whose file has gone missing is never recorded as a success in the retry run. */
  lemma {:induction false} MissingNeverSucceeds(candidates: seq<FileResult>, mode: Mode, existing: set<string>,
                                                process: string -> Outcome, ask: string -> Choice)
    ensures var r := Results(RetryItems(candidates), Go, mode, Guarded(process, existing), ask);
      && |r| == |candidates|
      && forall i :: 0 <= i < |candidates| && !Available(candidates[i].filepath, existing) ==>
           r[i].status != FileStatus.Success
  {
    SuccessMeansProcessed(RetryItems(candidates), Go, mode, Guarded(process, existing), ask);
  }

  /**
   * Under auto-continue a missing file counts as FAILED in the retry run,
   * and every other candidate is retried on its own merits.
   */
  lemma {:induction false} MissingCountsAsFailed(candidates: seq<FileResult>, existing: set<string>,
                                                 process: string -> Outcome, ask: string -> Choice)
    ensures var r := Results(RetryItems(candidates), Go, AutoContinue, Guarded(process, existing), ask);
      && |r| == |candidates|
      && forall i :: 0 <= i < |candidates| ==>
           r[i].status == (if Available(candidates[i].filepath, existing) && process(candidates[i].filepath).Processed?
                           then FileStatus.Success else FileStatus.Failed)
  {
    UnattendedResults(RetryItems(candidates), AutoContinue, Guarded(process, existing), ask);
  }

  /** The run a completed retry leaves: fresh id and timestamp, the candidates as items, counters and status that match. */
  ghost predicate RetryRun(run: PipelineRun, source: PipelineRun, candidates: seq<FileResult>, mode: Mode,
                           overrides: map<string, Json>, existing: set<string>,
                           process: string -> Outcome, ask: string -> Choice, now: DateTime, elapsed: real)
  {
    && ValidDateTime(now)
    && run.runId == GenerateRunId(now) && run.timestamp == IsoTimestamp(now)
    && run.totalFiles == |candidates| && run.mode == ModeName(mode)
    && run.config == RetryConfig(source, overrides)
    && run.files == Results(RetryItems(candidates), Go, mode, Guarded(process, existing), ask)
    && CountersMatchFiles(run) && run.Processed() == run.totalFiles
    && run.status == FinalStatus(run.failed, run.aborted)
    && run.duration == elapsed
  }

  /**
   * `retry_command`. `requested` is the optional run id argument, `show`
   * the `--show` flag, `yes` the `--yes` flag and `confirmed` the answer to
   * the prompt; `mode` and `overrides` are the retry's own options.
   * `existing`, `process`, `ask`, `now` and `elapsed` stand for the file
   * system, the chunker, the interactive prompt and the clock.
   * `source` is the run the command resolved, if any.
   */
  method RetryCommand(h: HistoryManager, requested: Option<string>, show: bool, yes: bool, confirmed: bool,
                      mode: Mode, overrides: map<string, Json>, existing: set<string>,
                      process: string -> Outcome, ask: string -> Choice, now: DateTime, elapsed: real)
    returns (outcome: RetryOutcome, source: Option<PipelineRun>)
    requires h.Valid() && ValidDateTime(now)
    modifies h
    ensures h.Valid()
    // run resolution
    ensures requested.Some? ==>
      source == (if requested.value in old(h.Runs) then Some(old(h.Runs)[requested.value]) else None)
    ensures requested.None? ==>
      (source.None? <==> forall id :: id in old(h.Runs) ==> !HasFailures(old(h.Runs)[id]))
    ensures requested.None? && source.Some? ==>
      && source.value.runId in old(h.Runs) && old(h.Runs)[source.value.runId] == source.value
      && HasFailures(source.value)
      && forall id :: id in old(h.Runs) && HasFailures(old(h.Runs)[id]) ==> id == source.value.runId || LexLess(id, source.value.runId)
    ensures source.None? ==> outcome == (if requested.None? then NoFailedRuns(show) else RunNotFound(requested.value))
    // gates and execution
    ensures source.Some? && Gate(source.value, RetryCandidates(source.value.files), show, yes, confirmed, existing).Some? ==>
      outcome == Gate(source.value, RetryCandidates(source.value.files), show, yes, confirmed, existing).value
    ensures source.Some? && Gate(source.value, RetryCandidates(source.value.files), show, yes, confirmed, existing).None? ==>
      && outcome.Completed?
      && RetryRun(outcome.run, source.value, RetryCandidates(source.value.files), mode, overrides, existing, process, ask, now, elapsed)
    // persistence: only a completed retry writes, and it writes exactly its own run
    ensures outcome.Completed? ==> h.Runs == old(h.Runs)[outcome.run.runId := outcome.run]
    ensures !outcome.Completed? ==> h.Runs == old(h.Runs) && h.records == old(h.records)
  {
    match requested {
      case Some(id) =>
        source := h.GetRun(id);
      case None =>
        source := h.GetLastFailedRun();
    }
    if source.None? {
      outcome := if requested.None? then NoFailedRuns(show) else RunNotFound(requested.value);
      return;
    }
    var from := source.value;
    var candidates := h.GetFailedFiles(from.runId);
    assert candidates == RetryCandidates(from.files) by {
      assert from.runId in h.Runs && h.Runs[from.runId] == from;
    }
    var gate := Gate(from, candidates, show, yes, confirmed, existing);
    if gate.Some? {
      outcome := gate.value;
      return;
    }
    var config := RetryConfig(from, overrides);
    var start := h.CreateRun(|candidates|, ModeName(mode), config, now);
    var items := RetryItems(candidates);
    var run := ExecuteRun(start, items, mode, Guarded(process, existing), ask, elapsed);
    h.SaveRun(run);
    outcome := Completed(run);
  }
}

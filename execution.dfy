/**
 * The execution core shared by the batch and retry commands: files are
 * attempted strictly in order, each attempt appends one `FileResult` and
 * bumps the matching counter, and the operating mode decides, at a single
 * dispatch point, what a processing error does to the file and to the
 * files after it.
 */
module Execution {
  import opened Wrappers
  import opened JsonValues
  import opened Status
  import opened Records

  /** The operating modes; `Interactive` asks the caller after each failure. */
  datatype Mode = Interactive | AutoContinue | AutoStop | AutoSkip

  function ModeName(m: Mode): (s: string)
    ensures |s| > 0
  {
    match m
    case Interactive => "interactive"
    case AutoContinue => "auto-continue"
    case AutoStop => "auto-stop"
    case AutoSkip => "auto-skip"
  }

  /** The `--mode` option; an unknown name is rejected. */
  function ParseMode(s: string): (r: Option<Mode>)
    ensures r.Some? ==> ModeName(r.value) == s
    ensures r.None? ==> forall m: Mode :: ModeName(m) != s
  {
    if s == "interactive" then Some(Interactive)
    else if s == "auto-continue" then Some(AutoContinue)
    else if s == "auto-stop" then Some(AutoStop)
    else if s == "auto-skip" then Some(AutoSkip)
    else None
  }

  lemma {:induction false} ModeNamesDistinct(m: Mode, n: Mode)
    ensures ModeName(m) == ModeName(n) ==> m == n
    ensures ParseMode(ModeName(m)) == Some(m)
  {
  }

  /** The three switches the pipeline manager is created with. */
  datatype ManagerFlags = ManagerFlags(autoContinue: bool, autoStop: bool, autoSkip: bool)

  /** At most one switch is on, and none is on exactly in interactive mode. */
  function FlagsFor(m: Mode): (f: ManagerFlags)
    ensures f.autoContinue <==> m == AutoContinue
    ensures f.autoStop <==> m == AutoStop
    ensures f.autoSkip <==> m == AutoSkip
    ensures !f.autoContinue && !f.autoStop && !f.autoSkip <==> m == Interactive
  {
    ManagerFlags(m == AutoContinue, m == AutoStop, m == AutoSkip)
  }

  /** What the per-file processor reports: metrics, or an error with its message and kind. */
  datatype Outcome =
    | Processed(chunks: nat, seconds: real, metadata: map<string, Json>)
    | ProcessingError(message: string, kind: string)

  /** The answers to the interactive prompt after a failure. */
  datatype Choice = Continue | Stop | SkipRest

  /** What happens to the files not yet attempted. */
  datatype Halt = Go | AbortingRest | SkippingRest

  /** One file to attempt, with the retry count its record carries. */
  datatype WorkItem = WorkItem(filename: string, filepath: string, retries: nat)

  const AutoSkipReason: string := "skipped after error (auto-skip mode)"
  const StoppedReason: string := "not attempted: run stopped after a failure"
  const SkipRestReason: string := "not attempted: remaining files skipped"

  /**
   * The single dispatch point: the status a failed file is recorded with,
   * and what becomes of the files after it. `choice` is consulted only in
   * interactive mode.
   */
  function OnFailure(mode: Mode, choice: Choice): (d: (FileStatus, Halt))
    ensures d.0 == FileStatus.Skipped <==> mode == AutoSkip
    ensures d.0 == FileStatus.Failed <==> mode != AutoSkip
    ensures d.1 == AbortingRest <==> mode == AutoStop || (mode == Interactive && choice == Stop)
    ensures d.1 == SkippingRest <==> mode == Interactive && choice == SkipRest
  {
    match mode
    case AutoContinue => (FileStatus.Failed, Go)
    case AutoSkip => (FileStatus.Skipped, Go)
    case AutoStop => (FileStatus.Failed, AbortingRest)
    case Interactive =>
      match choice
      case Continue => (FileStatus.Failed, Go)
      case Stop => (FileStatus.Failed, AbortingRest)
      case SkipRest => (FileStatus.Failed, SkippingRest)
  }

  /**
   * The manager's switches select the failure policy: with `auto_continue`
   * a failed file is recorded FAILED and the run goes on, with `auto_stop`
   * the rest of the run is aborted, with `auto_skip` the file is recorded
   * SKIPPED; with no switch on, the answer to the prompt decides. A retry
   * given `--mode auto-continue` therefore runs with `auto_continue` on.
   */
  lemma FlagsSelectPolicy(m: Mode, c: Choice)
    ensures FlagsFor(m).autoContinue ==> OnFailure(m, c) == (FileStatus.Failed, Go)
    ensures FlagsFor(m).autoStop ==> OnFailure(m, c) == (FileStatus.Failed, AbortingRest)
    ensures FlagsFor(m).autoSkip ==> OnFailure(m, c) == (FileStatus.Skipped, Go)
    ensures !FlagsFor(m).autoContinue && !FlagsFor(m).autoStop && !FlagsFor(m).autoSkip ==>
              OnFailure(m, c) == OnFailure(Interactive, c)
    ensures ParseMode("auto-continue").Some? && FlagsFor(ParseMode("auto-continue").value).autoContinue
  {
  }

  /** The shape every recorded file has: FAILED carries an error, SKIPPED a reason, SUCCESS neither. */
  predicate WellFormed(f: FileResult)
  {
    && (f.status == FileStatus.Failed ==> f.error.Some?)
    && (f.status == FileStatus.Skipped ==> f.reason.Some?)
    && (f.status == FileStatus.Success ==> f.error.None? && f.reason.None?)
  }

  /** The record of one attempted file. */
  function AttemptRecord(item: WorkItem, outcome: Outcome, status: FileStatus): (f: FileResult)
    requires outcome.Processed? ==> status == FileStatus.Success
    requires outcome.ProcessingError? ==> status == FileStatus.Failed || status == FileStatus.Skipped
    ensures f.filename == item.filename && f.filepath == item.filepath && f.retries == item.retries
    ensures f.status == status && WellFormed(f)
    ensures outcome.Processed? ==> f.chunksCreated == outcome.chunks && f.metadata == outcome.metadata
    ensures outcome.ProcessingError? ==> f.error == Some(outcome.message) && f.errorType == Some(outcome.kind) && f.chunksCreated == 0
  {
    match outcome
    case Processed(chunks, seconds, metadata) =>
      FileResult(item.filename, item.filepath, FileStatus.Success, chunks, seconds, item.retries, None, None, None, metadata)
    case ProcessingError(message, kind) =>
      FileResult(item.filename, item.filepath, status, 0, 0.0, item.retries, Some(message), Some(kind),
                 if status == FileStatus.Skipped then Some(AutoSkipReason) else None, map[])
  }

  /** The record of a file the run never attempted. */
  function UntouchedRecord(item: WorkItem, halt: Halt): (f: FileResult)
    requires halt != Go
    ensures f.filename == item.filename && f.filepath == item.filepath && f.retries == item.retries
    ensures f.status == (if halt == AbortingRest then FileStatus.Aborted else FileStatus.Skipped)
    ensures WellFormed(f) && f.chunksCreated == 0 && f.reason.Some?
  {
    FileResult(item.filename, item.filepath, if halt == AbortingRest then FileStatus.Aborted else FileStatus.Skipped,
               0, 0.0, item.retries, None, None, Some(if halt == AbortingRest then StoppedReason else SkipRestReason), map[])
  }

  /** One attempt: its record and the halt state it leaves behind. */
  datatype Step = Step(record: FileResult, next: Halt)

  function Attempt(item: WorkItem, outcome: Outcome, mode: Mode, choice: Choice): (s: Step)
    ensures s.record.status == FileStatus.Success <==> outcome.Processed?
    ensures outcome.Processed? ==> s.next == Go
    ensures outcome.ProcessingError? ==> (s.record.status, s.next) == OnFailure(mode, choice)
  {
    match outcome
    case Processed(_, _, _) => Step(AttemptRecord(item, outcome, FileStatus.Success), Go)
    case ProcessingError(_, _) =>
      var d := OnFailure(mode, choice);
      Step(AttemptRecord(item, outcome, d.0), d.1)
  }

  /** The record of `item` and the halt state after it, given the halt state before it. */
  function StepOf(item: WorkItem, halt: Halt, mode: Mode, process: string -> Outcome, ask: string -> Choice): Step
  {
    if halt == Go then Attempt(item, process(item.filepath), mode, ask(item.filepath))
    else Step(UntouchedRecord(item, halt), halt)
  }

  /**
   * The specification of a run: the records of `items`, in order, when the
   * run is in halt state `halt` before the first of them. `process` stands
   * for the per-file processor and `ask` for the interactive prompt.
   */
  function Results(items: seq<WorkItem>, halt: Halt, mode: Mode,
                   process: string -> Outcome, ask: string -> Choice): (r: seq<FileResult>)
    ensures |r| == |items|
    decreases |items|
  {
    if items == [] then []
    else
      var s := StepOf(items[0], halt, mode, process, ask);
      [s.record] + Results(items[1..], s.next, mode, process, ask)
  }

  /** Peeling item `i` off the unprocessed suffix. */
  lemma {:induction false} ResultsStep(items: seq<WorkItem>, i: nat, halt: Halt, mode: Mode,
                    process: string -> Outcome, ask: string -> Choice)
    requires i < |items|
    ensures Results(items[i..], halt, mode, process, ask)
         == [StepOf(items[i], halt, mode, process, ask).record]
          + Results(items[i + 1..], StepOf(items[i], halt, mode, process, ask).next, mode, process, ask)
  {
    assert items[i..][1..] == items[i + 1..];
  }

  lemma {:induction false} Rebracket(done: seq<FileResult>, f: FileResult, rest: seq<FileResult>, whole: seq<FileResult>)
    requires whole == [f] + rest
    ensures (done + [f]) + rest == done + whole
  {
  }

  /** Every item gets exactly one record, in item order, carrying the item's name, path and retry count. */
  lemma {:induction false} ResultsFollowItems(items: seq<WorkItem>, halt: Halt, mode: Mode,
                                              process: string -> Outcome, ask: string -> Choice)
    ensures |Results(items, halt, mode, process, ask)| == |items|
    ensures forall i :: 0 <= i < |items| ==>
      && Results(items, halt, mode, process, ask)[i].filename == items[i].filename
      && Results(items, halt, mode, process, ask)[i].filepath == items[i].filepath
      && Results(items, halt, mode, process, ask)[i].retries == items[i].retries
      && WellFormed(Results(items, halt, mode, process, ask)[i])
  {
    if items != [] {
      ResultsFollowItems(items[1..], StepOf(items[0], halt, mode, process, ask).next, mode, process, ask);
    }
  }

  /** A file is recorded SUCCESS only when it was attempted and the processor succeeded on it. */
  lemma {:induction false} SuccessMeansProcessed(items: seq<WorkItem>, halt: Halt, mode: Mode,
                                                 process: string -> Outcome, ask: string -> Choice)
    ensures |Results(items, halt, mode, process, ask)| == |items|
    ensures forall i :: 0 <= i < |items| && Results(items, halt, mode, process, ask)[i].status == FileStatus.Success ==>
      process(items[i].filepath).Processed?
  {
    if items != [] {
      var s := StepOf(items[0], halt, mode, process, ask);
      SuccessMeansProcessed(items[1..], s.next, mode, process, ask);
      assert forall i :: 1 <= i < |items| ==> items[i] == items[1..][i - 1];
    }
  }

  /** Once the rest is aborted (or skipped), every remaining file is recorded that way, unattempted. */
  lemma {:induction false} ResultsAfterHalt(items: seq<WorkItem>, halt: Halt, mode: Mode,
                                            process: string -> Outcome, ask: string -> Choice)
    requires halt != Go
    ensures Results(items, halt, mode, process, ask) == seq(|items|, i requires 0 <= i < |items| => UntouchedRecord(items[i], halt))
  {
    if items != [] {
      ResultsAfterHalt(items[1..], halt, mode, process, ask);
    }
  }

  /**
   * Under auto-continue and auto-skip every file is attempted: it succeeds,
   * or its error is recorded as FAILED (auto-continue) or SKIPPED (auto-skip).
   */
  lemma {:induction false} UnattendedResults(items: seq<WorkItem>, mode: Mode,
                                             process: string -> Outcome, ask: string -> Choice)
    requires mode == AutoContinue || mode == AutoSkip
    ensures |Results(items, Go, mode, process, ask)| == |items|
    ensures forall i :: 0 <= i < |items| ==>
      Results(items, Go, mode, process, ask)[i].status
        == (if process(items[i].filepath).Processed? then FileStatus.Success
            else if mode == AutoSkip then FileStatus.Skipped else FileStatus.Failed)
  {
    if items != [] {
      UnattendedResults(items[1..], mode, process, ask);
      assert forall i :: 1 <= i < |items| ==> items[i] == items[1..][i - 1];
    }
  }

  /** Auto-continue: nothing is skipped or aborted, and the run is DONE exactly when no file failed. */
  lemma {:induction false} AutoContinueTally(items: seq<WorkItem>, process: string -> Outcome, ask: string -> Choice)
    ensures var r := Results(items, Go, AutoContinue, process, ask);
      && CountStatus(r, FileStatus.Skipped) == 0 && CountStatus(r, FileStatus.Aborted) == 0
      && CountStatus(r, FileStatus.Success) + CountStatus(r, FileStatus.Failed) == |items|
      && (FinalStatus(CountStatus(r, FileStatus.Failed), 0) == PipelineStatus.Done
          <==> forall i :: 0 <= i < |items| ==> process(items[i].filepath).Processed?)
  {
    var r := Results(items, Go, AutoContinue, process, ask);
    UnattendedResults(items, AutoContinue, process, ask);
    CountStatusZero(r, FileStatus.Skipped);
    CountStatusZero(r, FileStatus.Aborted);
    CountStatusZero(r, FileStatus.Failed);
    CountStatusPartition(r);
  }

  /** Auto-skip: no file ends FAILED or ABORTED, so the run ends DONE. */
  lemma {:induction false} AutoSkipTally(items: seq<WorkItem>, process: string -> Outcome, ask: string -> Choice)
    ensures var r := Results(items, Go, AutoSkip, process, ask);
      && CountStatus(r, FileStatus.Failed) == 0 && CountStatus(r, FileStatus.Aborted) == 0
      && FinalStatus(CountStatus(r, FileStatus.Failed), CountStatus(r, FileStatus.Aborted)) == PipelineStatus.Done
  {
    var r := Results(items, Go, AutoSkip, process, ask);
    UnattendedResults(items, AutoSkip, process, ask);
    CountStatusZero(r, FileStatus.Failed);
    CountStatusZero(r, FileStatus.Aborted);
  }

  /**
   * Auto-stop with the first failure at index `k`: the files before it
   * succeeded, it is FAILED, and every file after it is ABORTED unattempted.
   */
  lemma {:induction false} AutoStopResults(items: seq<WorkItem>, k: nat, process: string -> Outcome, ask: string -> Choice)
    requires k < |items| && process(items[k].filepath).ProcessingError?
    requires forall j :: 0 <= j < k ==> process(items[j].filepath).Processed?
    ensures |Results(items, Go, AutoStop, process, ask)| == |items|
    ensures forall j :: 0 <= j < k ==> Results(items, Go, AutoStop, process, ask)[j].status == FileStatus.Success
    ensures Results(items, Go, AutoStop, process, ask)[k].status == FileStatus.Failed
    ensures forall j :: k < j < |items| ==> Results(items, Go, AutoStop, process, ask)[j].status == FileStatus.Aborted
    decreases k
  {
    ResultsFollowItems(items, Go, AutoStop, process, ask);
    if k == 0 {
      ResultsAfterHalt(items[1..], AbortingRest, AutoStop, process, ask);
    } else {
      AutoStopResults(items[1..], k - 1, process, ask);
      assert forall i :: 1 <= i < |items| ==> items[i] == items[1..][i - 1];
    }
  }

  /** The auto-stop tally: `k` successes, one failure, the rest aborted, so every planned file is accounted for. */
  lemma {:induction false} AutoStopTally(items: seq<WorkItem>, k: nat, process: string -> Outcome, ask: string -> Choice)
    requires k < |items| && process(items[k].filepath).ProcessingError?
    requires forall j :: 0 <= j < k ==> process(items[j].filepath).Processed?
    ensures var r := Results(items, Go, AutoStop, process, ask);
      && CountStatus(r, FileStatus.Success) == k
      && CountStatus(r, FileStatus.Failed) == 1
      && CountStatus(r, FileStatus.Skipped) == 0
      && CountStatus(r, FileStatus.Aborted) == |items| - k - 1
      && FinalStatus(1, |items| - k - 1) == (if k < |items| - 1 then PipelineStatus.Aborted else PipelineStatus.Failed)
  {
    var r := Results(items, Go, AutoStop, process, ask);
    AutoStopResults(items, k, process, ask);
    var before, f, after := r[..k], r[k], r[k + 1..];
    assert r == before + [f] + after;
    TallyAround(before, f, after, FileStatus.Success);
    TallyAround(before, f, after, FileStatus.Failed);
    TallyAround(before, f, after, FileStatus.Skipped);
    TallyAround(before, f, after, FileStatus.Aborted);
  }

  /** Counting over successes, then one failure, then aborted files. */
  lemma {:induction false} TallyAround(before: seq<FileResult>, f: FileResult, after: seq<FileResult>, s: FileStatus)
    requires forall j :: 0 <= j < |before| ==> before[j].status == FileStatus.Success
    requires f.status == FileStatus.Failed
    requires forall j :: 0 <= j < |after| ==> after[j].status == FileStatus.Aborted
    ensures CountStatus(before + [f] + after, s)
         == (if s == FileStatus.Success then |before| else 0)
          + (if s == FileStatus.Failed then 1 else 0)
          + (if s == FileStatus.Aborted then |after| else 0)
  {
    CountStatusConcat(before + [f], after, s);
    CountStatusConcat(before, [f], s);
    CountStatusUniform(before, FileStatus.Success, s);
    CountStatusUniform(after, FileStatus.Aborted, s);
    assert CountStatus([f], s) == (if s == FileStatus.Failed then 1 else 0) by {
      assert [f][1..] == [];
    }
  }

  /** Answering "continue" at every prompt gives exactly the auto-continue run. */
  lemma {:induction false} AlwaysContinueIsAutoContinue(items: seq<WorkItem>, halt: Halt, process: string -> Outcome,
                                                        ask: string -> Choice, other: string -> Choice)
    requires forall p :: ask(p) == Continue
    ensures Results(items, halt, Interactive, process, ask) == Results(items, halt, AutoContinue, process, other)
  {
    if items != [] {
      AlwaysContinueIsAutoContinue(items[1..], StepOf(items[0], halt, Interactive, process, ask).next, process, ask, other);
    }
  }

  /** Answering "stop" at every prompt gives exactly the auto-stop run. */
  lemma {:induction false} AlwaysStopIsAutoStop(items: seq<WorkItem>, halt: Halt, process: string -> Outcome,
                                                ask: string -> Choice, other: string -> Choice)
    requires forall p :: ask(p) == Stop
    ensures Results(items, halt, Interactive, process, ask) == Results(items, halt, AutoStop, process, other)
  {
    if items != [] {
      AlwaysStopIsAutoStop(items[1..], StepOf(items[0], halt, Interactive, process, ask).next, process, ask, other);
    }
  }

  /** Run status once the loop ends: ABORTED if any file was aborted, else FAILED if any failed, else DONE. */
  function FinalStatus(failed: nat, aborted: nat): (s: PipelineStatus)
    ensures IsTerminal(s)
    ensures s == PipelineStatus.Done <==> failed == 0 && aborted == 0
    ensures s == PipelineStatus.Aborted <==> aborted > 0
  {
    if aborted > 0 then PipelineStatus.Aborted
    else if failed > 0 then PipelineStatus.Failed
    else PipelineStatus.Done
  }

  /** Appends one record and bumps the counter of its status, keeping counters and files in step. */
  function Record(run: PipelineRun, f: FileResult): (r: PipelineRun)
    requires CountersMatchFiles(run)
    ensures CountersMatchFiles(r) && r.files == run.files + [f]
    ensures r.Processed() == run.Processed() + 1
    ensures r == run.(success := r.success, failed := r.failed, skipped := r.skipped, aborted := r.aborted, files := r.files)
  {
    CountStatusAppend(run.files, f, FileStatus.Success);
    CountStatusAppend(run.files, f, FileStatus.Failed);
    CountStatusAppend(run.files, f, FileStatus.Skipped);
    CountStatusAppend(run.files, f, FileStatus.Aborted);
    match f.status
    case Success => run.(success := run.success + 1, files := run.files + [f])
    case Failed => run.(failed := run.failed + 1, files := run.files + [f])
    case Skipped => run.(skipped := run.skipped + 1, files := run.files + [f])
    case Aborted => run.(aborted := run.aborted + 1, files := run.files + [f])
  }

  /**
   * One iteration of the run loop: attempts `item` while the run goes on
   * (asking what to do on a failure in interactive mode), or records it as
   * untouched once the run has halted.
   */
  method ProcessItem(item: WorkItem, halt: Halt, mode: Mode, process: string -> Outcome, ask: string -> Choice)
    returns (f: FileResult, next: Halt)
    ensures Step(f, next) == StepOf(item, halt, mode, process, ask)
  {
    if halt == Go {
      var outcome := process(item.filepath);
      if outcome.Processed? {
        f, next := AttemptRecord(item, outcome, FileStatus.Success), Go;
      } else {
        var choice := if mode == Interactive then ask(item.filepath) else Continue;
        assert OnFailure(mode, choice) == OnFailure(mode, ask(item.filepath));
        var d := OnFailure(mode, choice);
        f, next := AttemptRecord(item, outcome, d.0), d.1;
      }
    } else {
      f, next := UntouchedRecord(item, halt), halt;
    }
  }

  /**
   * Drives `items` through `process` in order on the fresh run `start`:
   * the run is RUNNING while files are attempted, each file adds one record
   * and one count, and the run ends in the status `FinalStatus` gives.
   * `elapsed` stands for the wall-clock time the run took.
   */
  method ExecuteRun(start: PipelineRun, items: seq<WorkItem>, mode: Mode,
                    process: string -> Outcome, ask: string -> Choice, elapsed: real)
    returns (run: PipelineRun)
    requires start.files == [] && start.Processed() == 0
    ensures run.files == Results(items, Go, mode, process, ask)
    ensures CountersMatchFiles(run) && run.Processed() == |items|
    ensures run.status == FinalStatus(run.failed, run.aborted)
    ensures run.duration == elapsed
    ensures run.runId == start.runId && run.timestamp == start.timestamp && run.totalFiles == start.totalFiles
    ensures run.mode == start.mode && run.config == start.config
  {
    run := start.(status := PipelineStatus.Running);
    var halt := Go;
    var i := 0;
    while i < |items|
      invariant 0 <= i <= |items|
      invariant run.files + Results(items[i..], halt, mode, process, ask) == Results(items, Go, mode, process, ask)
      invariant CountersMatchFiles(run) && run.Processed() == i
      invariant run.runId == start.runId && run.timestamp == start.timestamp && run.totalFiles == start.totalFiles
      invariant run.mode == start.mode && run.config == start.config
    {
      var f, next := ProcessItem(items[i], halt, mode, process, ask);
      ResultsStep(items, i, halt, mode, process, ask);
      Rebracket(run.files, f, Results(items[i + 1..], next, mode, process, ask), Results(items[i..], halt, mode, process, ask));
      run := Record(run, f);
      halt := next;
      i := i + 1;
    }
    assert items[|items|..] == [];
    run := run.(status := FinalStatus(run.failed, run.aborted), duration := elapsed);
  }
}

/**
 * The history store: one persisted JSON record per run, keyed by run id,
 * with point lookups, a chronological listing and the queries retry uses.
 */
module History {
  import opened Wrappers
  import opened JsonValues
  import opened Status
  import opened Records
  import opened Strings
  import opened RunIds

  /**
   * A run that a retry without an explicit id may pick up: when its counters
   * follow its file list, one whose status is FAILED or that recorded a
   * FAILED file.
   */
  function HasFailures(run: PipelineRun): (b: bool)
    ensures CountersMatchFiles(run) ==>
      (b <==> run.status == PipelineStatus.Failed
              || exists i :: 0 <= i < |run.files| && run.files[i].status == FileStatus.Failed)
  {
    CountStatusZero(run.files, FileStatus.Failed);
    run.failed > 0 || run.status == PipelineStatus.Failed
  }

  predicate NeedsRetry(f: FileResult)
  {
    f.status == FileStatus.Failed || f.status == FileStatus.Skipped
  }

  /** The files of a run that a retry reprocesses: FAILED or SKIPPED, in their original order. */
  function RetryCandidates(files: seq<FileResult>): (r: seq<FileResult>)
    ensures |r| <= |files|
    ensures forall f :: f in r <==> f in files && NeedsRetry(f)
  {
    if files == [] then []
    else (if NeedsRetry(files[0]) then [files[0]] else []) + RetryCandidates(files[1..])
  }

  /** Selection commutes with concatenation, so relative order is kept. */
  lemma {:induction false} RetryCandidatesAppend(a: seq<FileResult>, b: seq<FileResult>)
    ensures RetryCandidates(a + b) == RetryCandidates(a) + RetryCandidates(b)
  {
    if a != [] {
      assert (a + b)[1..] == a[1..] + b;
      RetryCandidatesAppend(a[1..], b);
    } else {
      assert a + b == b;
    }
  }

  /** Exactly the FAILED and SKIPPED files are selected, no SUCCESS or ABORTED one. */
  lemma {:induction false} RetryCandidatesCount(files: seq<FileResult>)
    ensures |RetryCandidates(files)| == CountStatus(files, FileStatus.Failed) + CountStatus(files, FileStatus.Skipped)
  {
    if files != [] {
      RetryCandidatesCount(files[1..]);
    }
  }

  predicate StrictlySorted(ids: seq<string>)
  {
    forall i, j :: 0 <= i < j < |ids| ==> LexLess(ids[i], ids[j])
  }

  /** Places `k` in a strictly ascending list of ids. */
  function InsertSorted(ids: seq<string>, k: string): (r: seq<string>)
    requires StrictlySorted(ids) && k !in ids
    ensures StrictlySorted(r) && |r| == |ids| + 1
    ensures forall x :: x in r <==> x in ids || x == k
  {
    if ids == [] then [k]
    else if LexLess(k, ids[0]) then
      assert forall j :: 0 <= j < |ids| ==> LexLess(k, ids[j]) by {
        forall j | 0 < j < |ids| ensures LexLess(k, ids[j]) {
          LexLessTransitive(k, ids[0], ids[j]);
        }
      }
      [k] + ids
    else
      LexLessTotal(k, ids[0]);
      var rest := InsertSorted(ids[1..], k);
      assert forall x :: x in rest ==> LexLess(ids[0], x);
      [ids[0]] + rest
  }

  /** The record filed under `id` is the serialised form of the run filed there. */
  ghost predicate Stored(records: map<string, Json>, runs: map<string, PipelineRun>, id: string)
  {
    id in records && id in runs && records[id] == PipelineRunToDict(runs[id])
  }

  /** Records and runs have the same ids, and each run is filed under its own id. */
  ghost predicate Filed(records: map<string, Json>, runs: map<string, PipelineRun>)
  {
    && records.Keys == runs.Keys
    && (forall id :: id in runs ==> runs[id].runId == id)
    && (forall id {:trigger Stored(records, runs, id)} :: id in runs ==> Stored(records, runs, id))
  }

  /** Filing a run under its id keeps every record the serialised form of its run. */
  lemma FiledUpdate(records: map<string, Json>, runs: map<string, PipelineRun>, run: PipelineRun)
    requires Filed(records, runs)
    ensures Filed(records[run.runId := PipelineRunToDict(run)], runs[run.runId := run])
  {
    var records', runs' := records[run.runId := PipelineRunToDict(run)], runs[run.runId := run];
    forall id | id in runs' ensures Stored(records', runs', id) {
      if id != run.runId {
        assert Stored(records, runs, id);
      }
    }
  }

  class HistoryManager {
    /** Where the records live; stands for the history directory. */
    const historyDir: string
    /** The persisted records: run id -> the JSON object written as `<run_id>.json`. */
    var records: map<string, Json>
    /** The runs the records hold (the store's abstract contents). */
    ghost var Runs: map<string, PipelineRun>

    /** Each record is the serialised form of the run filed under its own id. */
    ghost predicate Valid()
      reads this
    {
      Filed(records, Runs)
    }

    constructor (historyDir: string)
      ensures this.historyDir == historyDir && Runs == map[] && Valid()
    {
      this.historyDir := historyDir;
      records := map[];
      Runs := map[];
    }

    /** `get_run`: the stored run, or None when there is no record (or it does not decode). */
    function GetRun(runId: string): (r: Option<PipelineRun>)
      reads this
      ensures r.Some? ==> runId in records
      ensures Valid() ==> r == if runId in Runs then Some(Runs[runId]) else None
    {
      if runId in records && PipelineRunFromDict(records[runId]).Ok? then
        var run := PipelineRunFromDict(records[runId]).value;
        assert Valid() ==> run == Runs[runId] by {
          if Valid() {
            assert Stored(records, Runs, runId);
            PipelineRunRoundTrip(Runs[runId]);
          }
        }
        Some(run)
      else
        assert Valid() ==> runId !in Runs by {
          if Valid() && runId in Runs {
            assert Stored(records, Runs, runId);
            PipelineRunRoundTrip(Runs[runId]);
          }
        }
        None
    }

    /** `create_run`: a fresh INITIALIZING run; nothing is written. */
    method CreateRun(totalFiles: nat, mode: string, config: map<string, Json>, now: DateTime) returns (run: PipelineRun)
      requires ValidDateTime(now)
      ensures run.runId == GenerateRunId(now) && run.runId[..4] == "run_"
      ensures run.timestamp == IsoTimestamp(now)
      ensures run.status == PipelineStatus.Initializing && run.totalFiles == totalFiles
      ensures run.mode == mode && run.config == config
      ensures run.Processed() == 0 && run.files == [] && CountersMatchFiles(run)
    {
      run := PipelineRun(GenerateRunId(now), IsoTimestamp(now), PipelineStatus.Initializing,
                         totalFiles, 0, 0, 0, 0, 0.0, mode, config, []);
    }

    /** `_save_run`: writes the whole record under its run id, replacing any earlier one. */
    method SaveRun(run: PipelineRun)
      requires Valid()
      modifies this
      ensures Valid()
      ensures Runs == old(Runs)[run.runId := run]
      ensures records == old(records)[run.runId := PipelineRunToDict(run)]
      ensures GetRun(run.runId) == Some(run)
    {
      FiledUpdate(records, Runs, run);
      records := records[run.runId := PipelineRunToDict(run)];
      Runs := Runs[run.runId := run];
    }

    method Load(id: string) returns (run: PipelineRun)
      requires Valid() && id in Runs
      ensures run == Runs[id]
    {
      run := GetRun(id).value;
    }

    /** The stored run ids in ascending order. */
    method SortedRunIds() returns (ids: seq<string>)
      ensures StrictlySorted(ids) && |ids| == |records|
      ensures forall id :: id in ids <==> id in records
    {
      ids := [];
      var rest := records.Keys;
      while rest != {}
        invariant rest <= records.Keys
        invariant StrictlySorted(ids)
        invariant forall id :: id in ids <==> id in records && id !in rest
        invariant |ids| + |rest| == |records|
        decreases rest
      {
        var k :| k in rest;
        ids := InsertSorted(ids, k);
        rest := rest - {k};
      }
    }

    /**
     * `list_runs`: every stored run, oldest first. Ids ascend, and run ids
     * ascend with the clock (RunIds.RunIdMonotonic).
     */
    method ListRuns() returns (runs: seq<PipelineRun>)
      requires Valid()
      ensures |runs| == |Runs|
      ensures forall i, j :: 0 <= i < j < |runs| ==> LexLess(runs[i].runId, runs[j].runId)
      ensures forall i :: 0 <= i < |runs| ==> runs[i].runId in Runs && Runs[runs[i].runId] == runs[i]
      ensures forall id :: id in Runs ==> Runs[id] in runs
    {
      var ids := SortedRunIds();
      runs := LoadAll(ids);
      assert forall i :: 0 <= i < |runs| ==> runs[i].runId == ids[i];
      forall id | id in Runs ensures Runs[id] in runs {
        var j :| 0 <= j < |ids| && ids[j] == id;
        assert runs[j] == Runs[id];
      }
    }

    /** Reads the records named by `ids`, in that order. */
    method LoadAll(ids: seq<string>) returns (runs: seq<PipelineRun>)
      requires Valid()
      requires forall id :: id in ids ==> id in Runs
      ensures |runs| == |ids|
      ensures forall i :: 0 <= i < |ids| ==> runs[i] == Runs[ids[i]]
    {
      runs := [];
      for i := 0 to |ids|
        invariant |runs| == i
        invariant forall j :: 0 <= j < i ==> runs[j] == Runs[ids[j]]
      {
        var run := Load(ids[i]);
        runs := runs + [run];
      }
    }

    /** `get_last_failed_run`: the most recent run with failures, if any. */
    method GetLastFailedRun() returns (r: Option<PipelineRun>)
      requires Valid()
      ensures r.None? <==> forall id :: id in Runs ==> !HasFailures(Runs[id])
      ensures r.Some? ==> r.value.runId in Runs && Runs[r.value.runId] == r.value && HasFailures(r.value)
      ensures r.Some? ==> forall id :: id in Runs && HasFailures(Runs[id]) ==>
                id == r.value.runId || LexLess(id, r.value.runId)
    {
      var runs := ListRuns();
      var i := |runs|;
      while i > 0 && !HasFailures(runs[i - 1])
        invariant 0 <= i <= |runs|
        invariant forall j :: i <= j < |runs| ==> !HasFailures(runs[j])
      {
        i := i - 1;
      }
      if i == 0 {
        r := None;
        forall id | id in Runs ensures !HasFailures(Runs[id]) {
          var j :| 0 <= j < |runs| && runs[j] == Runs[id];
        }
      } else {
        r := Some(runs[i - 1]);
        forall id | id in Runs && HasFailures(Runs[id])
          ensures id == runs[i - 1].runId || LexLess(id, runs[i - 1].runId)
        {
          var j :| 0 <= j < |runs| && runs[j] == Runs[id];
          assert runs[j].runId == id;
          assert j <= i - 1;
        }
      }
    }

    /** `get_failed_files`: the FAILED and SKIPPED files of a run; an unknown run gives none. */
    function GetFailedFiles(runId: string): (r: seq<FileResult>)
      reads this
      ensures GetRun(runId).None? ==> r == []
      ensures GetRun(runId).Some? ==> r == RetryCandidates(GetRun(runId).value.files)
      ensures forall f :: f in r ==> NeedsRetry(f)
    {
      match GetRun(runId)
      case None => []
      case Some(run) => RetryCandidates(run.files)
    }
  }
}

/**
 * The run record model: one file's outcome (`FileResult`), one pipeline
 * execution (`PipelineRun`), their derived counters, and the lossless
 * `to_dict` / `from_dict` mapping to the persisted JSON object.
 */
module Records {
  import opened Wrappers
  import opened JsonValues
  import opened Status

  datatype FileResult = FileResult(
    filename: string,
    filepath: string,
    status: FileStatus,
    chunksCreated: nat,
    duration: real,
    retries: nat,
    error: Option<string>,
    errorType: Option<string>,
    reason: Option<string>,
    metadata: map<string, Json>)

  /** A `FileResult` built with only its required fields; the rest take their defaults. */
  function NewFileResult(filename: string, filepath: string, status: FileStatus): (r: FileResult)
    ensures r.filename == filename && r.filepath == filepath && r.status == status
    ensures r.retries == 0 && r.chunksCreated == 0 && r.duration == 0.0
    ensures r.error.None? && r.errorType.None? && r.reason.None? && r.metadata == map[]
  {
    FileResult(filename, filepath, status, 0, 0.0, 0, None, None, None, map[])
  }

  datatype PipelineRun = PipelineRun(
    runId: string,
    timestamp: string,
    status: PipelineStatus,
    totalFiles: nat,
    success: nat,
    failed: nat,
    skipped: nat,
    aborted: nat,
    duration: real,
    mode: string,
    config: map<string, Json>,
    files: seq<FileResult>)
  {
    /**
     * Files that reached an outcome of any kind; when the counters follow
     * the file list, that is the number of recorded files.
     */
    function Processed(): (n: nat)
      ensures CountersMatchFiles(this) ==> n == |files|
    {
      CountStatusPartition(files);
      success + failed + skipped + aborted
    }

    /** Share of processed files that succeeded; 0.0 before anything was processed. */
    function SuccessRate(): (r: real)
      ensures 0.0 <= r <= 1.0
      ensures Processed() == 0 ==> r == 0.0
      ensures Processed() > 0 ==> r * Processed() as real == success as real
      ensures r == 1.0 <==> Processed() > 0 && success == Processed()
    {
      if Processed() == 0 then 0.0
      else
        var p := Processed() as real;
        var r := success as real / p;
        assert r * p == success as real;
        RatioAtMostOne(success as real, p);
        assert success == Processed() ==> r == 1.0;
        r
    }
  }

  /** A share of a positive whole is at most one. */
  lemma RatioAtMostOne(part: real, whole: real)
    requires 0.0 <= part <= whole && whole > 0.0
    ensures part / whole <= 1.0
  {
  }

  /** The mode a run records when none is given. */
  const DefaultMode: string := "interactive"

  /** A run record built with only its required fields; counters start at zero. */
  function NewPipelineRun(runId: string, timestamp: string, status: PipelineStatus, totalFiles: nat): (r: PipelineRun)
    ensures r.runId == runId && r.timestamp == timestamp && r.status == status && r.totalFiles == totalFiles
    ensures r.Processed() == 0 && r.SuccessRate() == 0.0 && r.files == []
    ensures r.mode == DefaultMode && r.config == map[] && r.duration == 0.0
  {
    PipelineRun(runId, timestamp, status, totalFiles, 0, 0, 0, 0, 0.0, DefaultMode, map[], [])
  }

  // ---- counting statuses --------------------------------------------------

  function CountStatus(files: seq<FileResult>, s: FileStatus): (n: nat)
    ensures n <= |files|
  {
    if files == [] then 0
    else (if files[0].status == s then 1 else 0) + CountStatus(files[1..], s)
  }

  lemma {:induction false} CountStatusAppend(files: seq<FileResult>, f: FileResult, s: FileStatus)
    ensures CountStatus(files + [f], s) == CountStatus(files, s) + (if f.status == s then 1 else 0)
  {
    if files != [] {
      assert (files + [f])[1..] == files[1..] + [f];
      CountStatusAppend(files[1..], f, s);
    } else {
      assert CountStatus([f][1..], s) == 0;
    }
  }

  /** The four statuses partition any list of file results. */
  lemma {:induction false} CountStatusPartition(files: seq<FileResult>)
    ensures CountStatus(files, FileStatus.Success) + CountStatus(files, FileStatus.Failed)
          + CountStatus(files, FileStatus.Skipped) + CountStatus(files, FileStatus.Aborted) == |files|
  {
    if files != [] {
      CountStatusPartition(files[1..]);
    }
  }

  lemma {:induction false} CountStatusConcat(a: seq<FileResult>, b: seq<FileResult>, s: FileStatus)
    ensures CountStatus(a + b, s) == CountStatus(a, s) + CountStatus(b, s)
  {
    if a != [] {
      assert (a + b)[1..] == a[1..] + b;
      CountStatusConcat(a[1..], b, s);
    } else {
      assert a + b == b;
    }
  }

  /** A list where every file has status `s` counts all of them for `s` and none for any other status. */
  lemma {:induction false} CountStatusUniform(files: seq<FileResult>, s: FileStatus, t: FileStatus)
    requires forall i :: 0 <= i < |files| ==> files[i].status == s
    ensures CountStatus(files, s) == |files|
    ensures t != s ==> CountStatus(files, t) == 0
  {
    if files != [] {
      CountStatusUniform(files[1..], s, t);
    }
  }

  /** A status counts zero exactly when no file has it. */
  lemma {:induction false} CountStatusZero(files: seq<FileResult>, s: FileStatus)
    ensures CountStatus(files, s) == 0 <==> forall i :: 0 <= i < |files| ==> files[i].status != s
  {
    if files != [] {
      CountStatusZero(files[1..], s);
      assert forall i :: 1 <= i < |files| ==> files[i] == files[1..][i - 1];
    }
  }

  /** A run whose counters were kept in step with its file list. */
  predicate CountersMatchFiles(run: PipelineRun)
  {
    && run.success == CountStatus(run.files, FileStatus.Success)
    && run.failed == CountStatus(run.files, FileStatus.Failed)
    && run.skipped == CountStatus(run.files, FileStatus.Skipped)
    && run.aborted == CountStatus(run.files, FileStatus.Aborted)
  }

  // ---- to_dict ------------------------------------------------------------

  function OptionalString(o: Option<string>): Json
  {
    match o
    case None => JNull
    case Some(s) => JStr(s)
  }

  /** `j` is an object whose key `k` holds `v`. */
  predicate HasField(j: Json, k: string, v: Json)
  {
    j.JObj? && k in j.fields && j.fields[k] == v
  }

  function FileResultToDict(f: FileResult): (j: Json)
    ensures HasField(j, "status", JStr(FileStatusToString(f.status)))
    ensures HasField(j, "filename", JStr(f.filename)) && HasField(j, "chunks_created", JInt(f.chunksCreated))
  {
    JObj(map[
      "filename" := JStr(f.filename),
      "filepath" := JStr(f.filepath),
      "status" := JStr(FileStatusToString(f.status)),
      "chunks_created" := JInt(f.chunksCreated),
      "duration" := JReal(f.duration),
      "retries" := JInt(f.retries),
      "error" := OptionalString(f.error),
      "error_type" := OptionalString(f.errorType),
      "reason" := OptionalString(f.reason),
      "metadata" := JObj(f.metadata)])
  }

  function FilesToJson(files: seq<FileResult>): (items: seq<Json>)
    ensures |items| == |files|
  {
    if files == [] then [] else [FileResultToDict(files[0])] + FilesToJson(files[1..])
  }

  function PipelineRunToDict(run: PipelineRun): (j: Json)
    ensures HasField(j, "status", JStr(PipelineStatusToString(run.status)))
    ensures HasField(j, "run_id", JStr(run.runId)) && HasField(j, "total_files", JInt(run.totalFiles))
  {
    JObj(map[
      "run_id" := JStr(run.runId),
      "timestamp" := JStr(run.timestamp),
      "status" := JStr(PipelineStatusToString(run.status)),
      "total_files" := JInt(run.totalFiles),
      "success" := JInt(run.success),
      "failed" := JInt(run.failed),
      "skipped" := JInt(run.skipped),
      "aborted" := JInt(run.aborted),
      "duration" := JReal(run.duration),
      "mode" := JStr(run.mode),
      "config" := JObj(run.config),
      "files" := JArr(FilesToJson(run.files))])
  }

  // ---- from_dict ----------------------------------------------------------
  // A required key that is missing, a value of the wrong JSON kind, a
  // negative count or an unknown status token is an error naming the key.
  // Optional keys that are absent take the constructor's default.

  function RequiredString(m: map<string, Json>, k: string): Result<string, string>
  {
    if k in m && m[k].JStr? then Ok(m[k].s) else Err(k)
  }

  function RequiredCount(m: map<string, Json>, k: string): Result<nat, string>
  {
    if k in m && m[k].JInt? && m[k].i >= 0 then Ok(m[k].i) else Err(k)
  }

  function OptionalCount(m: map<string, Json>, k: string, default: nat): Result<nat, string>
  {
    if k !in m then Ok(default)
    else if m[k].JInt? && m[k].i >= 0 then Ok(m[k].i)
    else Err(k)
  }

  function OptionalSeconds(m: map<string, Json>, k: string): Result<real, string>
  {
    if k !in m then Ok(0.0)
    else match m[k]
      case JReal(r) => Ok(r)
      case JInt(i) => Ok(i as real)
      case _ => Err(k)
  }

  function OptionalText(m: map<string, Json>, k: string): Result<Option<string>, string>
  {
    if k !in m then Ok(None)
    else match m[k]
      case JNull => Ok(None)
      case JStr(s) => Ok(Some(s))
      case _ => Err(k)
  }

  function OptionalObject(m: map<string, Json>, k: string): Result<map<string, Json>, string>
  {
    if k !in m then Ok(map[])
    else if m[k].JObj? then Ok(m[k].fields)
    else Err(k)
  }

  function FileResultFromDict(j: Json): (r: Result<FileResult, string>)
    ensures r.Ok? ==> HasField(j, "status", JStr(FileStatusToString(r.value.status)))
    ensures r.Ok? ==> HasField(j, "filename", JStr(r.value.filename))
  {
    if !j.JObj? then Err("file result is not an object")
    else
      var m := j.fields;
      var filename :- RequiredString(m, "filename");
      var filepath :- RequiredString(m, "filepath");
      var token :- RequiredString(m, "status");
      var status :- if FileStatusFromString(token).Some? then Ok(FileStatusFromString(token).value) else Err("status");
      var chunks :- OptionalCount(m, "chunks_created", 0);
      var duration :- OptionalSeconds(m, "duration");
      var retries :- OptionalCount(m, "retries", 0);
      var error :- OptionalText(m, "error");
      var errorType :- OptionalText(m, "error_type");
      var reason :- OptionalText(m, "reason");
      var metadata :- OptionalObject(m, "metadata");
      Ok(FileResult(filename, filepath, status, chunks, duration, retries, error, errorType, reason, metadata))
  }

  function FilesFromJson(items: seq<Json>): (r: Result<seq<FileResult>, string>)
    ensures r.Ok? ==> |r.value| == |items|
  {
    if items == [] then Ok([])
    else
      var f :- FileResultFromDict(items[0]);
      var rest :- FilesFromJson(items[1..]);
      Ok([f] + rest)
  }

  datatype RunHeader = RunHeader(runId: string, timestamp: string, status: PipelineStatus, totalFiles: nat)
  datatype RunCounters = RunCounters(success: nat, failed: nat, skipped: nat, aborted: nat, duration: real)
  datatype RunBody = RunBody(mode: string, config: map<string, Json>, files: seq<FileResult>)

  function DecodeHeader(m: map<string, Json>): Result<RunHeader, string>
  {
    var runId :- RequiredString(m, "run_id");
    var timestamp :- RequiredString(m, "timestamp");
    var token :- RequiredString(m, "status");
    var status :- if PipelineStatusFromString(token).Some? then Ok(PipelineStatusFromString(token).value) else Err("status");
    var totalFiles :- RequiredCount(m, "total_files");
    Ok(RunHeader(runId, timestamp, status, totalFiles))
  }

  function DecodeCounters(m: map<string, Json>): Result<RunCounters, string>
  {
    var success :- OptionalCount(m, "success", 0);
    var failed :- OptionalCount(m, "failed", 0);
    var skipped :- OptionalCount(m, "skipped", 0);
    var aborted :- OptionalCount(m, "aborted", 0);
    var duration :- OptionalSeconds(m, "duration");
    Ok(RunCounters(success, failed, skipped, aborted, duration))
  }

  function DecodeBody(m: map<string, Json>): Result<RunBody, string>
  {
    var mode :- if "mode" !in m then Ok(DefaultMode) else RequiredString(m, "mode");
    var config :- OptionalObject(m, "config");
    var items :- if "files" !in m then Ok([]) else if m["files"].JArr? then Ok(m["files"].items) else Err("files");
    var files :- FilesFromJson(items);
    Ok(RunBody(mode, config, files))
  }

  function PipelineRunFromDict(j: Json): (r: Result<PipelineRun, string>)
    ensures r.Ok? ==> HasField(j, "run_id", JStr(r.value.runId))
    ensures r.Ok? ==> HasField(j, "status", JStr(PipelineStatusToString(r.value.status)))
  {
    if !j.JObj? then Err("run record is not an object")
    else
      var h :- DecodeHeader(j.fields);
      var c :- DecodeCounters(j.fields);
      var b :- DecodeBody(j.fields);
      Ok(PipelineRun(h.runId, h.timestamp, h.status, h.totalFiles,
                     c.success, c.failed, c.skipped, c.aborted, c.duration, b.mode, b.config, b.files))
  }

  // ---- round trips ----------------------------------------------------------

  /** The identifying fields of a file result read back from `to_dict`. */
  lemma FileNameFields(f: FileResult)
    ensures var m := FileResultToDict(f).fields;
      && RequiredString(m, "filename") == Ok(f.filename) && RequiredString(m, "filepath") == Ok(f.filepath)
      && RequiredString(m, "status") == Ok(FileStatusToString(f.status))
      && OptionalCount(m, "chunks_created", 0) == Ok(f.chunksCreated)
      && OptionalSeconds(m, "duration") == Ok(f.duration)
  {
  }

  /** The retry count, error details and metadata of a file result read back from `to_dict`. */
  lemma FileOutcomeFields(f: FileResult)
    ensures var m := FileResultToDict(f).fields;
      && OptionalCount(m, "retries", 0) == Ok(f.retries)
      && OptionalText(m, "error") == Ok(f.error) && OptionalText(m, "error_type") == Ok(f.errorType)
      && OptionalText(m, "reason") == Ok(f.reason) && OptionalObject(m, "metadata") == Ok(f.metadata)
  {
  }

  lemma FileResultRoundTrip(f: FileResult)
    ensures FileResultFromDict(FileResultToDict(f)) == Ok(f)
  {
    StatusTokensRoundTrip(f.status, PipelineStatus.Done);
    FileNameFields(f);
    FileOutcomeFields(f);
  }

  lemma {:induction false} FilesRoundTrip(files: seq<FileResult>)
    ensures FilesFromJson(FilesToJson(files)) == Ok(files)
  {
    if files != [] {
      FileResultRoundTrip(files[0]);
      FilesRoundTrip(files[1..]);
      assert FilesToJson(files)[1..] == FilesToJson(files[1..]);
      assert [files[0]] + files[1..] == files;
    }
  }

  /** The header fields read back from `to_dict(run)`. */
  lemma HeaderFields(run: PipelineRun)
    ensures var m := PipelineRunToDict(run).fields;
      && RequiredString(m, "run_id") == Ok(run.runId) && RequiredString(m, "timestamp") == Ok(run.timestamp)
      && RequiredString(m, "status") == Ok(PipelineStatusToString(run.status))
      && RequiredCount(m, "total_files") == Ok(run.totalFiles)
  {
  }

  /** The counters read back from `to_dict(run)`. */
  lemma CounterFields(run: PipelineRun)
    ensures var m := PipelineRunToDict(run).fields;
      && OptionalCount(m, "success", 0) == Ok(run.success) && OptionalCount(m, "failed", 0) == Ok(run.failed)
      && OptionalCount(m, "skipped", 0) == Ok(run.skipped) && OptionalCount(m, "aborted", 0) == Ok(run.aborted)
      && OptionalSeconds(m, "duration") == Ok(run.duration)
  {
  }

  lemma HeaderRoundTrip(run: PipelineRun)
    ensures DecodeHeader(PipelineRunToDict(run).fields) == Ok(RunHeader(run.runId, run.timestamp, run.status, run.totalFiles))
  {
    StatusTokensRoundTrip(FileStatus.Success, run.status);
    HeaderFields(run);
  }

  lemma CountersRoundTrip(run: PipelineRun)
    ensures DecodeCounters(PipelineRunToDict(run).fields) == Ok(RunCounters(run.success, run.failed, run.skipped, run.aborted, run.duration))
  {
    CounterFields(run);
  }

  /** The mode, config and file list read back from `to_dict(run)`. */
  lemma BodyFields(run: PipelineRun)
    ensures var m := PipelineRunToDict(run).fields;
      && "mode" in m && RequiredString(m, "mode") == Ok(run.mode)
      && OptionalObject(m, "config") == Ok(run.config)
      && "files" in m && m["files"] == JArr(FilesToJson(run.files))
  {
  }

  lemma BodyRoundTrip(run: PipelineRun)
    ensures DecodeBody(PipelineRunToDict(run).fields) == Ok(RunBody(run.mode, run.config, run.files))
  {
    FilesRoundTrip(run.files);
    BodyFields(run);
  }

  /** `from_dict(to_dict(run)) == run`, nested file results included. */
  lemma PipelineRunRoundTrip(run: PipelineRun)
    ensures PipelineRunFromDict(PipelineRunToDict(run)) == Ok(run)
  {
    HeaderRoundTrip(run);
    CountersRoundTrip(run);
    BodyRoundTrip(run);
  }
}

/**
 * The closed sets of per-file and per-run statuses and their persisted
 * lower-case string tokens.
 */
module Status {
  import opened Wrappers

  /** Outcome of one file within a run. */
  datatype FileStatus = Success | Failed | Skipped | Aborted

  /** Lifecycle state of a run; `Done`, `Failed` and `Aborted` are terminal. */
  datatype PipelineStatus = Initializing | Running | Done | Failed | Aborted

  predicate IsLowerToken(t: string)
  {
    |t| > 0 && forall i :: 0 <= i < |t| ==> 'a' <= t[i] <= 'z'
  }

  function FileStatusToString(s: FileStatus): (t: string)
    ensures IsLowerToken(t)
  {
    match s
    case Success => "success"
    case Failed => "failed"
    case Skipped => "skipped"
    case Aborted => "aborted"
  }

  /** Reads a persisted token back; an unknown token is rejected, never defaulted. */
  function FileStatusFromString(t: string): (r: Option<FileStatus>)
    ensures r.Some? ==> FileStatusToString(r.value) == t
    ensures r.None? ==> t !in {"success", "failed", "skipped", "aborted"}
  {
    if t == "success" then Some(FileStatus.Success)
    else if t == "failed" then Some(FileStatus.Failed)
    else if t == "skipped" then Some(FileStatus.Skipped)
    else if t == "aborted" then Some(FileStatus.Aborted)
    else None
  }

  function PipelineStatusToString(s: PipelineStatus): (t: string)
    ensures IsLowerToken(t)
  {
    match s
    case Initializing => "initializing"
    case Running => "running"
    case Done => "done"
    case Failed => "failed"
    case Aborted => "aborted"
  }

  function PipelineStatusFromString(t: string): (r: Option<PipelineStatus>)
    ensures r.Some? ==> PipelineStatusToString(r.value) == t
    ensures r.None? ==> t !in {"initializing", "running", "done", "failed", "aborted"}
  {
    if t == "initializing" then Some(PipelineStatus.Initializing)
    else if t == "running" then Some(PipelineStatus.Running)
    else if t == "done" then Some(PipelineStatus.Done)
    else if t == "failed" then Some(PipelineStatus.Failed)
    else if t == "aborted" then Some(PipelineStatus.Aborted)
    else None
  }

  /** Every status survives the trip through its token, and distinct statuses get distinct tokens. */
  lemma StatusTokensRoundTrip(f: FileStatus, p: PipelineStatus)
    ensures FileStatusFromString(FileStatusToString(f)) == Some(f)
    ensures PipelineStatusFromString(PipelineStatusToString(p)) == Some(p)
  {
  }

  predicate IsTerminal(s: PipelineStatus)
  {
    s == PipelineStatus.Done || s == PipelineStatus.Failed || s == PipelineStatus.Aborted
  }
}
